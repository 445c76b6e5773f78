/** The two sliding windows of the model-call budget: when does a request fit, and when will it? */
module BudgetWindow {
  import opened Basics

  /** Calls charged at an instant. */
  datatype Charge = Charge(calls: nat, at: Time)

  function Sum(rows: seq<Charge>): nat {
    if rows == [] then 0 else rows[0].calls + Sum(rows[1..])
  }

  /** The calls charged after `since`. */
  function Used(rows: seq<Charge>, since: Time): nat {
    if rows == [] then 0 else (if rows[0].at > since then rows[0].calls else 0) + Used(rows[1..], since)
  }

  predicate FitsWindow(rows: seq<Charge>, t: Time, calls: nat, limit: nat, window: Time) {
    Used(rows, t - window) + calls <= limit
  }

  /** With no further charges, `calls` more fit both limits at `t`. */
  predicate Fits(rows: seq<Charge>, t: Time, calls: nat, hourly: nat, daily: nat) {
    FitsWindow(rows, t, calls, hourly, HOUR) && FitsWindow(rows, t, calls, daily, DAY)
  }

  predicate IsSorted(rows: seq<Charge>) {
    forall i, j :: 0 <= i < j < |rows| ==> rows[i].at <= rows[j].at
  }

  lemma {:induction false} SumSplit(a: seq<Charge>, b: seq<Charge>)
    ensures Sum(a + b) == Sum(a) + Sum(b)
  {
    if a == [] { assert a + b == b; } else {
      assert (a + b)[1..] == a[1..] + b;
      SumSplit(a[1..], b);
    }
  }

  lemma {:induction false} UsedSplit(a: seq<Charge>, b: seq<Charge>, since: Time)
    ensures Used(a + b, since) == Used(a, since) + Used(b, since)
  {
    if a == [] { assert a + b == b; } else {
      assert (a + b)[1..] == a[1..] + b;
      UsedSplit(a[1..], b, since);
    }
  }

  lemma {:induction false} UsedAtMost(rows: seq<Charge>, since: Time)
    ensures Used(rows, since) <= Sum(rows)
  {
    if rows != [] { UsedAtMost(rows[1..], since); }
  }

  lemma {:induction false} UsedAll(rows: seq<Charge>, since: Time)
    requires forall i :: 0 <= i < |rows| ==> rows[i].at > since
    ensures Used(rows, since) == Sum(rows)
  {
    if rows != [] { UsedAll(rows[1..], since); }
  }

  lemma {:induction false} UsedNone(rows: seq<Charge>, since: Time)
    requires forall i :: 0 <= i < |rows| ==> rows[i].at <= since
    ensures Used(rows, since) == 0
  {
    if rows != [] { UsedNone(rows[1..], since); }
  }

  /** The window only empties as time goes on. */
  lemma {:induction false} UsedMono(rows: seq<Charge>, since: Time, later: Time)
    requires since <= later
    ensures Used(rows, later) <= Used(rows, since)
  {
    if rows != [] { UsedMono(rows[1..], since, later); }
  }

  /** Dropping a row no window can reach changes nothing. */
  method Recent(rows: seq<Charge>, since: Time) returns (kept: seq<Charge>)
    requires IsSorted(rows)
    ensures IsSorted(kept) && |kept| <= |rows| && kept == rows[|rows| - |kept|..]
    ensures forall i :: 0 <= i < |kept| ==> kept[i].at > since
    ensures forall i :: 0 <= i < |rows| - |kept| ==> rows[i].at <= since
  {
    kept := [];
    var i := 0;
    while i < |rows|
      invariant 0 <= i <= |rows| && |kept| <= i && kept == rows[i - |kept|..i]
      invariant forall j :: 0 <= j < |kept| ==> kept[j].at > since
      invariant forall j :: 0 <= j < i - |kept| ==> rows[j].at <= since
    {
      if rows[i].at > since {
        kept := kept + [rows[i]];
      }
      i := i + 1;
    }
  }

  /** `moment` is the first instant from `now` on at which the request fits this window. */
  ghost predicate IsFirstFit(rows: seq<Charge>, now: Time, moment: Time, calls: nat, limit: nat, window: Time) {
    && now <= moment && FitsWindow(rows, moment, calls, limit, window)
    && forall t :: now <= t < moment ==> !FitsWindow(rows, t, calls, limit, window)
  }

  /** `shown` is the part of `rows` inside the window ending at `now`. */
  ghost predicate IsShown(rows: seq<Charge>, shown: seq<Charge>, now: Time, window: Time) {
    && IsSorted(rows) && |shown| <= |rows| && shown == rows[|rows| - |shown|..]
    && (forall i :: 0 <= i < |shown| ==> shown[i].at > now - window)
    && (forall i :: 0 <= i < |rows| - |shown| ==> rows[i].at <= now - window)
  }

  lemma ShownIsEnough(rows: seq<Charge>, shown: seq<Charge>, now: Time, window: Time, t: Time)
    requires IsShown(rows, shown, now, window) && t >= now
    ensures Used(rows, t - window) == Used(shown, t - window)
  {
    var gone := rows[..|rows| - |shown|];
    assert rows == gone + shown;
    UsedSplit(gone, shown, t - window);
    UsedNone(gone, t - window);
  }

  lemma ShownIsSorted(rows: seq<Charge>, shown: seq<Charge>, now: Time, window: Time)
    requires IsShown(rows, shown, now, window)
    ensures IsSorted(shown) && forall i :: 0 <= i < |shown| ==> shown[i].at > now - window
  {
    var n := |rows| - |shown|;
    assert forall i :: 0 <= i < |shown| ==> shown[i] == rows[n + i];
  }

  lemma SuffixIsUsed(shown: seq<Charge>, k: nat, since: Time)
    requires IsSorted(shown) && k < |shown| && since < shown[k].at
    ensures Used(shown, since) >= Sum(shown) - Sum(shown[..k])
  {
    assert shown == shown[..k] + shown[k..];
    SumSplit(shown[..k], shown[k..]);
    UsedSplit(shown[..k], shown[k..], since);
    UsedAll(shown[k..], since);
  }

  lemma PrefixIsUnused(shown: seq<Charge>, k: nat)
    requires IsSorted(shown) && k < |shown|
    ensures Used(shown, shown[k].at) <= Sum(shown) - Sum(shown[..k + 1])
  {
    assert shown == shown[..k + 1] + shown[k + 1..];
    SumSplit(shown[..k + 1], shown[k + 1..]);
    UsedSplit(shown[..k + 1], shown[k + 1..], shown[k].at);
    UsedNone(shown[..k + 1], shown[k].at);
    UsedAtMost(shown[k + 1..], shown[k].at);
  }

  /** When the row `k` of the window has left it, enough has been released; not a moment sooner. */
  lemma ReleaseIsExact(rows: seq<Charge>, shown: seq<Charge>, k: nat, now: Time, calls: nat, limit: nat, window: Time)
    requires IsShown(rows, shown, now, window) && k < |shown|
    requires Sum(shown[..k]) < Sum(shown) + calls - limit <= Sum(shown[..k + 1])
    ensures IsFirstFit(rows, now, shown[k].at + window, calls, limit, window)
  {
    hide IsShown, IsSorted;
    ShownIsSorted(rows, shown, now, window);
    ShownIsEnough(rows, shown, now, window, shown[k].at + window);
    PrefixIsUnused(shown, k);
    forall t | now <= t < shown[k].at + window ensures !FitsWindow(rows, t, calls, limit, window) {
      ShownIsEnough(rows, shown, now, window, t);
      SuffixIsUsed(shown, k, t - window);
    }
  }

  /** One window of the deferral: the instant it has room, unless it has room now. */
  method ReleaseInstant(rows: seq<Charge>, shown: seq<Charge>, now: Time, calls: nat, limit: nat, window: Time)
    returns (moment: Option<Time>)
    requires IsShown(rows, shown, now, window) && calls <= limit
    ensures moment.None? <==> FitsWindow(rows, now, calls, limit, window)
    ensures moment.Some? ==> IsFirstFit(rows, now, moment.value, calls, limit, window)
  {
    var used := 0;
    for i := 0 to |shown|
      invariant used == Sum(shown[..i])
    {
      SumSplit(shown[..i], [shown[i]]);
      assert shown[..i + 1] == shown[..i] + [shown[i]];
      used := used + shown[i].calls;
    }
    assert shown[..|shown|] == shown;
    ShownIsEnough(rows, shown, now, window, now);
    UsedAll(shown, now - window);
    if used + calls <= limit { return None; }
    var required, released, k := used + calls - limit, 0, 0;
    while k < |shown|
      invariant 0 <= k <= |shown| && released == Sum(shown[..k]) < required
    {
      SumSplit(shown[..k], [shown[k]]);
      assert shown[..k + 1] == shown[..k] + [shown[k]];
      released := released + shown[k].calls;
      if released >= required {
        ReleaseIsExact(rows, shown, k, now, calls, limit, window);
        return Some(shown[k].at + window);
      }
      k := k + 1;
    }
    assert false;
  }

  /** `until` is one second past the first instant at which the request fits. */
  ghost predicate IsDeferral(rows: seq<Charge>, now: Time, calls: nat, hourly: nat, daily: nat, until: Time) {
    && now <= until - SECOND
    && Fits(rows, until - SECOND, calls, hourly, daily) && Fits(rows, until, calls, hourly, daily)
    && forall t :: now <= t < until - SECOND ==> !Fits(rows, t, calls, hourly, daily)
  }

  /** What `_budget_defer_until` answers: nothing exactly when the request fits now; otherwise the
      deferral, or a fixed wait when no waiting could help. */
  ghost predicate IsBudgetAnswer(rows: seq<Charge>, now: Time, calls: nat, hourly: nat, daily: nat, until: Option<Time>) {
    && (until.None? <==> Fits(rows, now, calls, hourly, daily))
    && (calls > hourly && calls <= daily ==> until == Some(now + HOUR + SECOND))
    && (calls > daily ==> until == Some(now + DAY + SECOND))
    && (calls <= hourly && calls <= daily && until.Some? ==> IsDeferral(rows, now, calls, hourly, daily, until.value))
  }

  /** `_budget_defer_until` */
  method BudgetDeferUntil(rows: seq<Charge>, now: Time, calls: nat, hourly: nat, daily: nat) returns (until: Option<Time>)
    requires IsSorted(rows)
    ensures IsBudgetAnswer(rows, now, calls, hourly, daily, until)
  {
    if calls > daily { return Some(now + DAY + SECOND); }
    if calls > hourly { return Some(now + HOUR + SECOND); }
    var day := Recent(rows, now - DAY);
    var hour := Recent(rows, now - HOUR);
    var hourMoment := ReleaseInstant(rows, hour, now, calls, hourly, HOUR);
    var dayMoment := ReleaseInstant(rows, day, now, calls, daily, DAY);
    if hourMoment.None? && dayMoment.None? { return None; }
    var moment := Max(if hourMoment.Some? then hourMoment.value else now, if dayMoment.Some? then dayMoment.value else now);
    LaterFits(rows, now, moment, hourMoment, calls, hourly, HOUR);
    LaterFits(rows, now, moment, dayMoment, calls, daily, DAY);
    LaterFits(rows, now, moment + SECOND, hourMoment, calls, hourly, HOUR);
    LaterFits(rows, now, moment + SECOND, dayMoment, calls, daily, DAY);
    return Some(moment + SECOND);
  }

  lemma LaterFits(rows: seq<Charge>, now: Time, t: Time, moment: Option<Time>, calls: nat, limit: nat, window: Time)
    requires moment.None? ==> FitsWindow(rows, now, calls, limit, window) && t >= now
    requires moment.Some? ==> FitsWindow(rows, moment.value, calls, limit, window) && t >= moment.value
    ensures FitsWindow(rows, t, calls, limit, window)
  {
    UsedMono(rows, (if moment.Some? then moment.value else now) - window, t - window);
  }

  /** The answer is unique: no other deferral meets the description. */
  lemma DeferralIsUnique(rows: seq<Charge>, now: Time, calls: nat, hourly: nat, daily: nat, a: Time, b: Time)
    requires IsDeferral(rows, now, calls, hourly, daily, a) && IsDeferral(rows, now, calls, hourly, daily, b)
    ensures a == b
  {
  }
}
