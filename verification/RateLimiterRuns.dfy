/** Whole lives of a limiter: with any windows, and with one that does not change. */
module RateLimiterRuns {
  import opened Basics
  import opened RateLimiter

  datatype Op = Ask(requests: seq<(Key, int)>, window: int, now: real, decision: Decision) | Forget(key: Key)

  /** The limiter's capacities, and for each key the most it is ever asked to allow. */
  datatype Setting = Setting(maxKeys: nat, maxHits: nat, caps: map<Key, nat>)

  function Seconds(window: int): real {
    Max(1, window) as real
  }

  ghost predicate Enabled(history: History, clock: real, g: Setting, op: Op) {
    match op
    case Ask(requests, _, now, decision) =>
      && now >= clock && IsDecision(PoppedOnly(history, now), Normalized(requests), now, g.maxKeys, g.maxHits, decision)
      && forall k :: k in Normalized(requests) ==> k in g.caps && Normalized(requests)[k] <= g.caps[k]
    case Forget(_) => true
  }

  function Step(history: History, op: Op): History {
    match op
    case Ask(requests, window, now, decision) =>
      if decision.allowed then Admit(history, Normalized(requests).Keys, now + Seconds(window)) else history
    case Forget(key) => history - {key}
  }

  function ClockAfter(clock: real, op: Op): real {
    if op.Ask? then op.now else clock
  }

  ghost predicate IsRun(g: Setting, run: seq<History>, clocks: seq<real>, ops: seq<Op>) {
    && |run| == |clocks| == |ops| + 1 && run[0] == map[]
    && forall i :: 0 <= i < |ops| ==>
         && Enabled(run[i], clocks[i], g, ops[i])
         && run[i + 1] == Step(run[i], ops[i]) && clocks[i + 1] == ClockAfter(clocks[i], ops[i])
  }

  lemma RunStep(g: Setting, run: seq<History>, clocks: seq<real>, ops: seq<Op>, n: nat)
    requires IsRun(g, run, clocks, ops) && n < |ops|
    ensures Enabled(run[n], clocks[n], g, ops[n])
    ensures run[n + 1] == Step(run[n], ops[n]) && clocks[n + 1] == ClockAfter(clocks[n], ops[n])
  {
    hide Enabled, Step;
  }

  lemma LimitIsPositive(requests: seq<(Key, int)>, k: Key)
    requires k in Normalized(requests)
    ensures Normalized(requests)[k] >= 1
  {
    NormalizedIsStrictest(requests);
  }

  /** A request that was allowed found each of its keys below its limit. */
  lemma AllowedHasRoom(history: History, clock: real, g: Setting, op: Op, k: Key)
    requires op.Ask? && op.decision.allowed && Enabled(history, clock, g, op) && k in Normalized(op.requests)
    ensures k in g.caps && g.caps[k] >= 1 && (k in history ==> |Popped(history[k], op.now)| < g.caps[k])
  {
    hide Popped, Normalized, HasCapacity, IsLongest, IsCapacityRetry;
    LimitIsPositive(op.requests, k);
    assert k !in Blocked(PoppedOnly(history, op.now), Normalized(op.requests));
  }

  // ---------------------------------------------------------------- any windows

  /** Every key is within its limit, whatever its hits' windows. */
  ghost predicate IsWithin(history: History, clock: real, g: Setting) {
    forall k :: k in history ==> k in g.caps && |Live(history[k], clock)| <= g.caps[k]
  }

  lemma {:induction false} LiveAtMostPopped(hits: Hits, now: real)
    ensures |Live(hits, now)| <= |Popped(hits, now)|
  {
    if hits != [] && hits[0] <= now { LiveAtMostPopped(hits[1..], now); }
  }

  lemma OneMoreLive(hits: Hits, now: real, expiry: real)
    ensures |Live(hits + [expiry], now)| <= |Live(hits, now)| + 1
  {
    LiveSplit(hits, [expiry], now);
  }

  lemma StepStaysWithin(history: History, clock: real, g: Setting, op: Op)
    requires IsWithin(history, clock, g) && Enabled(history, clock, g, op)
    ensures IsWithin(Step(history, op), ClockAfter(clock, op), g)
  {
    hide Live, Popped, Normalized, Enabled;
    var after, later := Step(history, op), ClockAfter(clock, op);
    forall k | k in after ensures k in g.caps && |Live(after[k], later)| <= g.caps[k] {
      if op.Ask? && op.decision.allowed && k in Normalized(op.requests) {
        AllowedHasRoom(history, clock, g, op, k);
        var before := if k in history then history[k] else [];
        LiveAtMostPopped(before, op.now);
        PoppedAt(before, op.now);
        OneMoreLive(before, op.now, op.now + Seconds(op.window));
      } else {
        assert after[k] == history[k];
        ClockRuns(history, clock, g, op);
        LiveLater(history[k], clock, later);
      }
    }
  }

  lemma ClockRuns(history: History, clock: real, g: Setting, op: Op)
    requires Enabled(history, clock, g, op)
    ensures ClockAfter(clock, op) >= clock
  {
    hide IsDecision;
  }

  lemma {:induction false} EveryRunStaysWithin(g: Setting, run: seq<History>, clocks: seq<real>, ops: seq<Op>, n: nat)
    requires IsRun(g, run, clocks, ops) && n < |run|
    ensures IsWithin(run[n], clocks[n], g)
  {
    if n > 0 {
      EveryRunStaysWithin(g, run, clocks, ops, n - 1);
      RunStep(g, run, clocks, ops, n - 1);
      StepStaysWithin(run[n - 1], clocks[n - 1], g, ops[n - 1]);
    }
  }

  /** Whatever windows the limiter is asked to use, and however they change: a lazy table may refuse
      what an eager one would allow, but never has more unexpired hits of a key than its limit. */
  lemma NoKeyExceedsItsLimit(g: Setting, run: seq<History>, clocks: seq<real>, ops: seq<Op>, n: nat, k: Key, t: real)
    requires IsRun(g, run, clocks, ops) && n < |run| && k in run[n] && t >= clocks[n]
    ensures k in g.caps && |Live(run[n][k], t)| <= g.caps[k]
  {
    EveryRunStaysWithin(g, run, clocks, ops, n);
    LiveLater(run[n][k], clocks[n], t);
  }

  // ----------------------------------------------------- a window that stays as it is

  ghost predicate IsSteady(ops: seq<Op>, window: int) {
    forall i :: 0 <= i < |ops| && ops[i].Ask? ==> ops[i].window == window
  }

  /** Any hit comes at least a window after the one `cap` places before it. */
  ghost predicate IsSpaced(hits: Hits, cap: nat, window: real) {
    forall i, j :: 0 <= i < j < |hits| && j == i + cap ==> hits[j] - hits[i] >= window
  }

  ghost predicate KeyOk(hits: Hits, clock: real, cap: nat, window: real) {
    IsSorted(hits) && (forall i :: 0 <= i < |hits| ==> hits[i] <= clock + window) && IsSpaced(hits, cap, window)
  }

  ghost predicate Inv(history: History, clock: real, g: Setting, window: int) {
    forall k :: k in history ==> k in g.caps && g.caps[k] >= 1 && KeyOk(history[k], clock, g.caps[k], Seconds(window))
  }

  lemma {:induction false} LiveSuffix(hits: Hits, now: real, n: nat)
    requires IsSorted(hits) && n <= |hits| && |Live(hits, now)| < |hits| - n
    ensures hits[n] <= now
  {
    if n > 0 {
      LiveSuffix(hits[1..], now, n - 1);
    } else if hits[0] > now {
      LiveAll(hits, now);
    }
  }

  /** A key with room is a window away from the hit it would crowd. */
  lemma AdmitKeepsKey(hits: Hits, clock: real, now: real, cap: nat, window: real)
    requires KeyOk(hits, clock, cap, window) && clock <= now && |Live(hits, now)| < cap && window > 0.0
    ensures KeyOk(hits + [now + window], now, cap, window)
  {
    var more := hits + [now + window];
    forall i, j | 0 <= i < j < |more| && j == i + cap ensures more[j] - more[i] >= window {
      if j == |hits| { LiveSuffix(hits, now, i); } else { assert more[i] == hits[i] && more[j] == hits[j]; }
    }
  }

  lemma FirstKeepsKey(now: real, cap: nat, window: real)
    requires cap >= 1 && window > 0.0
    ensures KeyOk([now + window], now, cap, window)
  {
  }

  lemma OtherKey(hits: Hits, clock: real, now: real, cap: nat, window: real)
    requires KeyOk(hits, clock, cap, window) && clock <= now
    ensures KeyOk(hits, now, cap, window)
  {
  }

  lemma SortedExpiresFirst(hits: Hits, now: real)
    requires IsSorted(hits)
    ensures ExpiredFirst(hits, now)
  {
  }

  /** Hits in order: counting what is left at the front is counting what is live. */
  lemma RoomIsRoom(hits: Hits, now: real)
    requires IsSorted(hits)
    ensures Popped(hits, now) == Live(hits, now)
  {
    SortedExpiresFirst(hits, now);
    PoppedIsLiveExactlyWhen(hits, now);
  }

  lemma StepKeepsInv(history: History, clock: real, g: Setting, window: int, op: Op)
    requires Inv(history, clock, g, window) && Enabled(history, clock, g, op) && (op.Ask? ==> op.window == window)
    ensures Inv(Step(history, op), ClockAfter(clock, op), g, window)
  {
    hide KeyOk, Normalized, Enabled, Live, Popped;
    var after, later := Step(history, op), ClockAfter(clock, op);
    ClockRuns(history, clock, g, op);
    forall k | k in after
      ensures k in g.caps && g.caps[k] >= 1 && KeyOk(after[k], later, g.caps[k], Seconds(window))
    {
      if op.Ask? && op.decision.allowed && k in Normalized(op.requests) {
        AllowedHasRoom(history, clock, g, op, k);
        if k in history {
          KeyIsSorted(history[k], clock, g.caps[k], Seconds(window));
          RoomIsRoom(history[k], op.now);
          AdmitKeepsKey(history[k], clock, op.now, g.caps[k], Seconds(window));
        } else {
          FirstKeepsKey(op.now, g.caps[k], Seconds(window));
          assert after[k] == [op.now + Seconds(window)];
        }
      } else {
        OtherKey(history[k], clock, later, g.caps[k], Seconds(window));
        assert after[k] == history[k];
      }
    }
  }

  lemma KeyIsSorted(hits: Hits, clock: real, cap: nat, window: real)
    requires KeyOk(hits, clock, cap, window)
    ensures IsSorted(hits)
  {
    hide IsSorted, IsSpaced;
  }

  lemma {:induction false} EveryRunKeepsInv(g: Setting, window: int, run: seq<History>, clocks: seq<real>, ops: seq<Op>, n: nat)
    requires IsRun(g, run, clocks, ops) && IsSteady(ops, window) && n < |run|
    ensures Inv(run[n], clocks[n], g, window)
  {
    if n > 0 {
      EveryRunKeepsInv(g, window, run, clocks, ops, n - 1);
      RunStep(g, run, clocks, ops, n - 1);
      hide Inv, Step, Enabled;
      StepKeepsInv(run[n - 1], clocks[n - 1], g, window, ops[n - 1]);
    }
  }

  /** With an unchanging window every decision of every run is that of a limiter that keeps exactly the
      unexpired hits. */
  lemma EveryDecisionIsEager(g: Setting, window: int, run: seq<History>, clocks: seq<real>, ops: seq<Op>, n: nat)
    requires IsRun(g, run, clocks, ops) && IsSteady(ops, window) && n < |ops| && ops[n].Ask?
    ensures var op := ops[n];
            IsDecision(LiveOnly(run[n], op.now), Normalized(op.requests), op.now, g.maxKeys, g.maxHits, op.decision)
  {
    hide LiveOnly, PoppedOnly, KeyOk, ExpiredFirst, IsDecision;
    EveryRunKeepsInv(g, window, run, clocks, ops, n);
    RunStep(g, run, clocks, ops, n);
    hide IsRun;
    forall k | k in run[n] ensures ExpiredFirst(run[n][k], ops[n].now) {
      KeyIsSorted(run[n][k], clocks[n], g.caps[k], Seconds(window));
      SortedExpiresFirst(run[n][k], ops[n].now);
    }
    LazyIsExactExactlyWhen(run[n], ops[n].now);
  }

  // ------------------------------------------------------------- the window bound

  function Range(from: nat, n: nat): set<nat> {
    if n == 0 then {} else Range(from, n - 1) + {from + n - 1}
  }

  lemma {:induction false} RangeIsRange(from: nat, n: nat)
    ensures |Range(from, n)| <= n && forall i :: i in Range(from, n) <==> from <= i < from + n
  {
    if n > 0 { RangeIsRange(from, n - 1); }
  }

  /** The hits made in the window that ends at `t`; a hit is made a window before it expires. */
  function InWindow(hits: Hits, t: real, window: real): set<nat> {
    set i: nat | i < |hits| && t - window < hits[i] - window <= t
  }

  lemma {:induction false} FirstInWindow(hits: Hits, t: real) returns (first: nat)
    requires IsSorted(hits)
    ensures first <= |hits| && (forall i :: 0 <= i < first ==> hits[i] <= t) && forall i :: first <= i < |hits| ==> hits[i] > t
  {
    first := 0;
    while first < |hits| && hits[first] <= t
      invariant 0 <= first <= |hits| && forall i :: 0 <= i < first ==> hits[i] <= t
    {
      first := first + 1;
    }
  }

  lemma SpacedIsBounded(hits: Hits, t: real, cap: nat, window: real)
    requires IsSorted(hits) && IsSpaced(hits, cap, window) && cap >= 1
    ensures |InWindow(hits, t, window)| <= cap
  {
    var first := FirstInWindow(hits, t);
    RangeIsRange(first, cap);
    forall i | i in InWindow(hits, t, window) ensures i in Range(first, cap) {
      if i >= first + cap { FarApart(hits, first, i, cap, window); }
    }
    SubsetSize(InWindow(hits, t, window), Range(first, cap));
  }

  lemma FarApart(hits: Hits, i: nat, j: nat, cap: nat, window: real)
    requires IsSorted(hits) && IsSpaced(hits, cap, window) && cap >= 1 && i + cap <= j < |hits|
    ensures hits[j] - hits[i] >= window
  {
    assert hits[i + cap] - hits[i] >= window && (i + cap == j || hits[i + cap] <= hits[j]);
  }

  /** Between two clears no window of the limiter's length, wherever it lies, holds more admitted hits
      of a key than the key's limit. */
  lemma NoWindowOverflows(g: Setting, window: int, run: seq<History>, clocks: seq<real>, ops: seq<Op>, n: nat, k: Key, t: real)
    requires IsRun(g, run, clocks, ops) && IsSteady(ops, window) && n < |run| && k in run[n]
    ensures k in g.caps && |InWindow(run[n][k], t, Seconds(window))| <= g.caps[k]
  {
    EveryRunKeepsInv(g, window, run, clocks, ops, n);
    assert KeyOk(run[n][k], clocks[n], g.caps[k], Seconds(window));
    SpacedIsBounded(run[n][k], t, g.caps[k], Seconds(window));
  }

  // --------------------------------------------------------------- two short runs

  lemma OneRequest(k: Key, limit: nat)
    requires limit >= 1
    ensures Normalized([(k, limit)]) == map[k := limit] && Normalized([(k, limit)]).Keys == {k}
  {
    assert [(k, limit)][..0] == [];
  }

  /** A decision when one key is all there is, under capacities that leave room. */
  lemma DecisionOnOne(k: Key, hits: Hits, limit: nat, now: real, g: Setting, d: Decision)
    requires limit >= 1 && g.maxKeys >= 1 && g.maxHits >= |hits| + 1
    requires d == if |hits| >= limit then Decision(false, RetryAfter(hits[0] - now)) else Decision(true, 0)
    ensures IsDecision(if hits == [] then map[] else map[k := hits], map[k := limit], now, g.maxKeys, g.maxHits, d)
  {
    var table: History, limits := if hits == [] then map[] else map[k := hits], map[k := limit];
    assert table.Keys + limits.Keys == {k};
    if hits != [] {
      UpdateTotal(map[], k, hits);
      assert table == map[][k := hits];
      assert FirstExpiry(table, k) == hits[0];
    }
    if |hits| >= limit { assert k in Blocked(table, limits); }
  }

  /** One request for one key, hits, limit and outcome given. */
  lemma AskOnOne(k: Key, hits: Hits, limit: nat, window: int, clock: real, now: real, g: Setting, d: Decision)
    requires limit >= 1 && g.maxKeys >= 1 && g.maxHits >= |hits| + 1 && k in g.caps && limit <= g.caps[k] && clock <= now
    requires hits != [] ==> hits[0] > now
    requires d == if |hits| >= limit then Decision(false, RetryAfter(hits[0] - now)) else Decision(true, 0)
    ensures var history, op := (if hits == [] then map[] else map[k := hits]), Ask([(k, limit)], window, now, d);
            Enabled(history, clock, g, op)
            && Step(history, op) == if d.allowed then map[k := hits + [now + Seconds(window)]] else history
  {
    hide Normalized, Admit, PoppedOnly, IsDecision;
    OneRequest(k, limit);
    DecisionOnOne(k, hits, limit, now, g, d);
    TableOfOne(k, hits, now, now + Seconds(window));
  }

  lemma TableOfOne(k: Key, hits: Hits, now: real, expiry: real)
    requires hits != [] ==> hits[0] > now
    ensures var history: History := if hits == [] then map[] else map[k := hits];
            PoppedOnly(history, now) == history && Admit(history, {k}, expiry) == map[k := hits + [expiry]]
  {
  }

  /** When a window is shortened the table may keep an expired hit behind a live one, and count it: a
      request is refused although only one of the two hits allowed is left. */
  lemma ShorterWindowMiscounts(k: Key) returns (g: Setting, run: seq<History>, clocks: seq<real>, ops: seq<Op>)
    ensures IsRun(g, run, clocks, ops) && |ops| == 3 && ops[2] == Ask([(k, 2)], 1, 5.0, Decision(false, 5))
    ensures IsDecision(LiveOnly(run[2], 5.0), map[k := 2], 5.0, g.maxKeys, g.maxHits, Decision(true, 0))
  {
    hide Enabled, Step, IsDecision, LiveOnly;
    g := Setting(1000, 1000, map[k := 2]);
    ops := [Ask([(k, 2)], 10, 0.0, Decision(true, 0)), Ask([(k, 2)], 1, 0.0, Decision(true, 0)),
            Ask([(k, 2)], 1, 5.0, Decision(false, 5))];
    run, clocks := [map[], map[k := [10.0]], map[k := [10.0, 1.0]], map[k := [10.0, 1.0]]], [0.0, 0.0, 0.0, 5.0];
    AskOnOne(k, [], 2, 10, 0.0, 0.0, g, Decision(true, 0));
    AskOnOne(k, [10.0], 2, 1, 0.0, 0.0, g, Decision(true, 0));
    AskOnOne(k, [10.0, 1.0], 2, 1, 0.0, 5.0, g, Decision(false, 5));
    assert [] + [0.0 + Seconds(10)] == [10.0] && [10.0] + [0.0 + Seconds(1)] == [10.0, 1.0];
    OneIsLeft(k);
    DecisionOnOne(k, [10.0], 2, 5.0, g, Decision(true, 0));
  }

  lemma OneIsLeft(k: Key)
    ensures LiveOnly(map[k := [10.0, 1.0]], 5.0) == map[k := [10.0]]
  {
    LiveSplit([10.0], [1.0], 5.0);
    LiveOne(10.0, 5.0);
    LiveOne(1.0, 5.0);
    assert [10.0, 1.0] == [10.0] + [1.0];
  }

  /** A refused caller that comes back exactly when it was told to is refused again: 1.0005 seconds were
      reported as one. */
  lemma RetryCanFallShort(k: Key) returns (g: Setting, run: seq<History>, clocks: seq<real>, ops: seq<Op>)
    ensures IsRun(g, run, clocks, ops) && IsSteady(ops, 60) && |ops| == 3 && ops[1].Ask? && ops[2].Ask?
    ensures !ops[1].decision.allowed && ops[2].now == ops[1].now + ops[1].decision.retryAfter as real && !ops[2].decision.allowed
  {
    hide Enabled, Step;
    g := Setting(1000, 1000, map[k := 1]);
    ops := [Ask([(k, 1)], 60, 0.0, Decision(true, 0)), Ask([(k, 1)], 60, 58.9995, Decision(false, 1)),
            Ask([(k, 1)], 60, 59.9995, Decision(false, 1))];
    run, clocks := [map[], map[k := [60.0]], map[k := [60.0]], map[k := [60.0]]], [0.0, 0.0, 58.9995, 59.9995];
    AskOnOne(k, [], 1, 60, 0.0, 0.0, g, Decision(true, 0));
    AskOnOne(k, [60.0], 1, 60, 0.0, 58.9995, g, Decision(false, 1));
    AskOnOne(k, [60.0], 1, 60, 58.9995, 59.9995, g, Decision(false, 1));
    assert [] + [0.0 + Seconds(60)] == [60.0];
  }
}
