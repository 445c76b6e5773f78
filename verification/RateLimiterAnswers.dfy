/** When a request is allowed, what it leaves behind, and how long a refused one is told to wait. */
module RateLimiterAnswers {
  import opened Basics
  import opened RateLimiter

  /** The hits of a key that count against it. */
  function Counted(history: History, k: Key, now: real): Hits {
    if k in history then Popped(history[k], now) else []
  }

  /** Keys with anything that counts. */
  function InUse(history: History, now: real): set<Key> {
    set k | k in history && Counted(history, k, now) != []
  }

  /** A request is allowed exactly when each of its keys is below its limit, and the table can take its keys
      and hits. */
  lemma AllowedExactlyWhen(history: History, limits: map<Key, nat>, now: real, maxKeys: nat, maxHits: nat, d: Decision)
    requires IsDecision(PoppedOnly(history, now), limits, now, maxKeys, maxHits, d) && forall k :: k in limits ==> limits[k] >= 1
    ensures d.allowed <==>
            && (forall k :: k in limits ==> |Counted(history, k, now)| < limits[k])
            && |InUse(history, now) + limits.Keys| <= maxKeys
            && Total(map k | k in InUse(history, now) :: |Counted(history, k, now)|) + |limits.Keys| <= maxHits
    ensures if d.allowed then d.retryAfter == 0 else d.retryAfter >= 1
  {
    hide Popped, RetryAfter, PoppedOnly, Counted, InUse, Blocked;
    var known := PoppedOnly(history, now);
    KnownIsCounted(history, now);
    NoneIsBlocked(history, limits, now);
    assert |limits| == |limits.Keys|;
    RetryIsPositive(known, now);
  }

  lemma KnownIsCounted(history: History, now: real)
    ensures PoppedOnly(history, now).Keys == InUse(history, now)
    ensures Sizes(PoppedOnly(history, now)) == map k | k in InUse(history, now) :: |Counted(history, k, now)|
  {
    hide Popped;
  }

  lemma NoneIsBlocked(history: History, limits: map<Key, nat>, now: real)
    requires forall k :: k in limits ==> limits[k] >= 1
    ensures Blocked(PoppedOnly(history, now), limits) == {} <==> forall k :: k in limits ==> |Counted(history, k, now)| < limits[k]
  {
    hide Popped;
    var blocked := Blocked(PoppedOnly(history, now), limits);
    forall k | k in limits ensures k in blocked <==> |Counted(history, k, now)| >= limits[k] {}
    if blocked != {} { var k :| k in blocked; }
  }

  lemma RetryIsPositive(table: History, now: real)
    ensures forall k :: KeyRetry(table, k, now) >= 1
    ensures RetryAfter(1.0) >= 1
  {
  }

  /** An allowed request adds one hit to each of its keys, once, and to no other. */
  lemma AdmittedHits(history: History, keys: set<Key>, expiry: real, k: Key)
    ensures var after := Admit(history, keys, expiry);
            && after.Keys == history.Keys + keys
            && (k in keys && k in history ==> after[k] == history[k] + [expiry])
            && (k in keys && k !in history ==> after[k] == [expiry])
            && (k !in keys && k in history ==> after[k] == history[k])
  {
  }

  /** What a request at its keys' limits is told: after that many seconds, and a millisecond, each of the keys
      that refused it has lost a hit; and some key refuses until less than a second before. */
  lemma ToldWaitFrees(history: History, limits: map<Key, nat>, now: real, maxKeys: nat, maxHits: nat, d: Decision, k: Key, t: real)
    requires IsDecision(PoppedOnly(history, now), limits, now, maxKeys, maxHits, d)
    requires k in limits && limits[k] >= 1 && |Counted(history, k, now)| >= limits[k]
    ensures !d.allowed
    ensures t >= now + d.retryAfter as real + 0.001 ==> |Counted(history, k, t)| < |Counted(history, k, now)|
    ensures exists j :: j in limits && Counted(history, j, now) != [] && |Counted(history, j, now)| >= limits[j]
                        && (d.retryAfter == 1 || Counted(history, j, now)[0] > now + d.retryAfter as real - 1.0)
  {
    hide Popped;
    var known := PoppedOnly(history, now);
    assert k in Blocked(known, limits) && known[k] == Counted(history, k, now);
    FrontIsLive(history[k], now);
    RetryIsClose(known[k][0] - now);
    if t >= now + d.retryAfter as real + 0.001 { FrontGoes(history[k], now, t); }
    var j :| j in Blocked(known, limits) && d.retryAfter == KeyRetry(known, j, now);
    FrontIsLive(history[j], now);
    RetryIsClose(known[j][0] - now);
  }

  lemma {:induction false} FrontIsLive(hits: Hits, now: real)
    ensures Popped(hits, now) != [] ==> Popped(hits, now)[0] > now
  {
    if hits != [] && hits[0] <= now { FrontIsLive(hits[1..], now); }
  }

  /** When its first counted hit has expired, a key has fewer. */
  lemma {:induction false} FrontGoes(hits: Hits, now: real, t: real)
    requires now <= t && Popped(hits, now) != [] && Popped(hits, now)[0] <= t
    ensures |Popped(hits, t)| < |Popped(hits, now)|
  {
    if hits[0] <= now {
      FrontGoes(hits[1..], now, t);
    } else {
      PoppedAt(hits[1..], t);
    }
  }

  /** A request the table cannot take is told when the first hit of all expires, to the second; an empty
      table says one second. */
  lemma ToldCapacityWait(history: History, limits: map<Key, nat>, now: real, maxKeys: nat, maxHits: nat, d: Decision)
    requires IsDecision(PoppedOnly(history, now), limits, now, maxKeys, maxHits, d) && !d.allowed
    requires forall k :: k in limits ==> |Counted(history, k, now)| < limits[k]
    ensures InUse(history, now) == {} ==> d.retryAfter == 1
    ensures InUse(history, now) != {} ==>
              exists k :: k in InUse(history, now)
                && (forall j :: j in InUse(history, now) ==> Counted(history, k, now)[0] <= Counted(history, j, now)[0])
                && Counted(history, k, now)[0] - now - 0.001 < d.retryAfter as real
                && (d.retryAfter == 1 || d.retryAfter as real < Counted(history, k, now)[0] - now + 1.0)
  {
    hide Popped;
    var known := PoppedOnly(history, now);
    assert known.Keys == InUse(history, now);
    assert Blocked(known, limits) == {};
    if known != map[] {
      var k :| k in known && d.retryAfter == KeyRetry(known, k, now)
               && forall j :: j in known ==> FirstExpiry(known, k) <= FirstExpiry(known, j);
      FrontIsLive(history[k], now);
      RetryIsClose(known[k][0] - now);
      assert k in InUse(history, now);
      forall j | j in InUse(history, now) ensures Counted(history, k, now)[0] <= Counted(history, j, now)[0] {
        assert j in known && FirstExpiry(known, k) <= FirstExpiry(known, j);
      }
    }
  }
}
