/** Rate and concurrency admission, for speech requests and for direct model requests: a rolling
    window of requests and leases that expire by themselves, in tables that are pruned as they are used. */
module Admission {
  import opened Basics

  type User = string
  type Id = string

  datatype Request = Request(user: User, at: Time)

  datatype Lease = Lease(user: User, acquired: Time, expires: Time, released: Option<Time>)

  /** `history` is how long a finished lease stays in its table: the rate window for speech requests,
      the longer of window and lease for direct ones. */
  datatype Config = Config(requests: nat, window: Time, userCap: nat, globalCap: nat, lease: Time, history: Time)

  predicate IsConfig(cfg: Config) {
    cfg.requests >= 1 && cfg.window > 0 && cfg.userCap >= 1 && cfg.globalCap >= 1 && cfg.lease > 0 && cfg.history >= 0
  }

  datatype Reason = Retired | TooMany | UserBusy | AllBusy

  /** `Passed` is an admitted request that needs no lease. */
  datatype Outcome = Leased(id: Id) | Passed | Rejected(reason: Reason, retryAt: Time)

  // ------------------------------------------------- the never-pruned history

  predicate Counts(r: Request, user: User, from: Time, to: Time) {
    r.user == user && from < r.at <= to
  }

  function CountIn(log: seq<Request>, user: User, from: Time, to: Time): nat {
    if log == [] then 0
    else
      var n := |log| - 1;
      CountIn(log[..n], user, from, to) + if Counts(log[n], user, from, to) then 1 else 0
  }

  ghost predicate IsOldest(log: seq<Request>, user: User, from: Time, to: Time, oldest: Time) {
    && (exists i :: 0 <= i < |log| && Counts(log[i], user, from, to) && log[i].at == oldest)
    && forall i :: 0 <= i < |log| && Counts(log[i], user, from, to) ==> oldest <= log[i].at
  }

  predicate IsActive(l: Lease, who: Option<User>, now: Time) {
    l.released.None? && l.expires > now && (who.None? || l.user == who.value)
  }

  function Active(leases: map<Id, Lease>, who: Option<User>, now: Time): set<Id> {
    set id | id in leases && IsActive(leases[id], who, now)
  }

  ghost predicate IsEarliest(leases: map<Id, Lease>, who: Option<User>, now: Time, earliest: Time) {
    && (exists id :: id in Active(leases, who, now) && leases[id].expires == earliest)
    && forall id :: id in Active(leases, who, now) ==> earliest <= leases[id].expires
  }

  /** The decision computed from everything that ever happened. */
  ghost predicate IsVerdict(log: seq<Request>, grants: map<Id, Lease>, cfg: Config, user: User, exempt: bool, retired: bool,
                            newId: Id, now: Time, outcome: Outcome)
  {
    if retired then outcome == Rejected(Retired, now + HOUR)
    else if CountIn(log, user, now - cfg.window, now) >= cfg.requests then
      outcome.Rejected? && outcome.reason.TooMany? && IsOldest(log, user, now - cfg.window, now, outcome.retryAt - cfg.window)
    else if exempt then outcome == Passed
    else if |Active(grants, Some(user), now)| >= cfg.userCap then
      outcome.Rejected? && outcome.reason.UserBusy? && IsEarliest(grants, Some(user), now, outcome.retryAt)
    else if |Active(grants, None, now)| >= cfg.globalCap then
      outcome.Rejected? && outcome.reason.AllBusy? && IsEarliest(grants, None, now, outcome.retryAt)
    else outcome == Leased(newId)
  }

  /** A request counts against the window unless it was refused before the window or by it. */
  function LogAfter(log: seq<Request>, user: User, now: Time, outcome: Outcome): seq<Request> {
    if outcome.Rejected? && (outcome.reason.Retired? || outcome.reason.TooMany?) then log else log + [Request(user, now)]
  }

  function GrantsAfter(grants: map<Id, Lease>, cfg: Config, user: User, now: Time, outcome: Outcome): map<Id, Lease> {
    if outcome.Leased? then grants[outcome.id := Lease(user, now, now + cfg.lease, None)] else grants
  }

  // -------------------------------------------------------------- retry times

  /** `_retry_after` of the speech controller: whole seconds, rounded up, at least one. */
  function SpeechRetry(wait: Time): int {
    Max(1, (wait + SECOND - 1) / SECOND)
  }

  /** The direct admission's rounding; for a wait that is not negative it cuts off towards zero. */
  function DirectRetry(wait: Time): int {
    Max(1, (wait + 999_000) / SECOND)
  }

  lemma SpeechRetrySuffices(wait: Time)
    ensures SpeechRetry(wait) * SECOND >= wait && (wait > 0 ==> SpeechRetry(wait) * SECOND < wait + SECOND)
  {
  }

  /** The direct rounding may fall short by less than a millisecond. */
  lemma DirectRetryFallsShortExactlyWhen(wait: Time)
    requires wait >= SECOND
    ensures DirectRetry(wait) * SECOND > wait - 1000
    ensures DirectRetry(wait) * SECOND < wait <==> 0 < wait % SECOND < 1000
  {
  }

  // -------------------------------------------------------- the pruned tables

  function RequestsAfter(log: seq<Request>, cutoff: Time): seq<Request> {
    if log == [] then []
    else
      var n := |log| - 1;
      RequestsAfter(log[..n], cutoff) + if log[n].at > cutoff then [log[n]] else []
  }

  lemma {:induction false} PruneTwice(log: seq<Request>, a: Time, b: Time)
    requires a <= b
    ensures RequestsAfter(RequestsAfter(log, a), b) == RequestsAfter(log, b)
  {
    if log != [] {
      var n := |log| - 1;
      PruneTwice(log[..n], a, b);
      var before := RequestsAfter(log[..n], a);
      if log[n].at > a { assert (before + [log[n]])[..|before|] == before; } else { assert before + [] == before; }
    }
  }

  lemma {:induction false} CountPruned(log: seq<Request>, cutoff: Time, user: User, from: Time, to: Time)
    requires cutoff <= from
    ensures CountIn(RequestsAfter(log, cutoff), user, from, to) == CountIn(log, user, from, to)
  {
    if log != [] {
      var n := |log| - 1;
      CountPruned(log[..n], cutoff, user, from, to);
      var before := RequestsAfter(log[..n], cutoff);
      if log[n].at > cutoff { assert (before + [log[n]])[..|before|] == before; } else { assert before + [] == before; }
    }
  }

  lemma {:induction false} PrunedKeeps(log: seq<Request>, cutoff: Time, r: Request)
    ensures r in RequestsAfter(log, cutoff) <==> r in log && r.at > cutoff
  {
    if log != [] {
      var n := |log| - 1;
      PrunedKeeps(log[..n], cutoff, r);
      assert log == log[..n] + [log[n]];
    }
  }

  lemma OldestPruned(log: seq<Request>, cutoff: Time, user: User, from: Time, to: Time, oldest: Time)
    requires cutoff <= from && IsOldest(RequestsAfter(log, cutoff), user, from, to, oldest)
    ensures IsOldest(log, user, from, to, oldest)
  {
    var kept := RequestsAfter(log, cutoff);
    var i :| 0 <= i < |kept| && Counts(kept[i], user, from, to) && kept[i].at == oldest;
    PrunedKeeps(log, cutoff, kept[i]);
    assert kept[i] in kept;
    forall j | 0 <= j < |log| && Counts(log[j], user, from, to) ensures oldest <= log[j].at {
      PrunedKeeps(log, cutoff, log[j]);
      var m :| 0 <= m < |kept| && kept[m] == log[j];
    }
  }

  lemma AppendPruned(log: seq<Request>, cutoff: Time, r: Request)
    requires r.at > cutoff
    ensures RequestsAfter(log + [r], cutoff) == RequestsAfter(log, cutoff) + [r]
  {
    assert (log + [r])[..|log|] == log;
  }

  /** A row of the lease table is the grant it stands for, perhaps closed because it has expired. */
  predicate IsRowOf(row: Lease, grant: Lease, clock: Time) {
    || row == grant
    || (grant.released.None? && grant.expires <= clock && row == grant.(released := Some(grant.expires)))
  }

  /** The lease table against all grants: what is missing from it is over. */
  ghost predicate LeasesOk(leases: map<Id, Lease>, grants: map<Id, Lease>, clock: Time) {
    && (forall id :: id in leases ==> id in grants && IsRowOf(leases[id], grants[id], clock))
    && forall id :: id in grants && id !in leases ==> grants[id].released.Some? || grants[id].expires <= clock
  }

  lemma SameActive(leases: map<Id, Lease>, grants: map<Id, Lease>, clock: Time, who: Option<User>, now: Time)
    requires LeasesOk(leases, grants, clock) && clock <= now
    ensures Active(leases, who, now) == Active(grants, who, now)
    ensures forall id :: id in Active(leases, who, now) ==> leases[id] == grants[id]
  {
  }

  class Controller {
    const cfg: Config
    var requests: seq<Request>
    var leases: map<Id, Lease>
    ghost var log: seq<Request>
    ghost var grants: map<Id, Lease>
    ghost var cutoff: Time
    ghost var clock: Time

    ghost predicate Valid()
      reads this
    {
      && IsConfig(cfg) && cutoff <= clock - cfg.window
      && requests == RequestsAfter(log, cutoff) && LeasesOk(leases, grants, clock)
    }

    constructor (cfg: Config, ghost now: Time)
      requires IsConfig(cfg)
      ensures Valid() && this.cfg == cfg && log == [] && grants == map[] && clock == now
    {
      this.cfg, requests, leases := cfg, [], map[];
      log, grants, cutoff, clock := [], map[], now - cfg.window, now;
    }

    /** `_prune_expired` */
    method Prune(now: Time)
      requires Valid() && now >= clock
      modifies `requests, `leases, `cutoff, `clock
      ensures Valid() && clock == now && cutoff == now - cfg.window
    {
      hide RequestsAfter;
      PruneTwice(log, cutoff, now - cfg.window);
      PruneRequests(now - cfg.window);
      cutoff, clock := now - cfg.window, now;
      leases := map id | id in leases ::
        if leases[id].released.None? && leases[id].expires <= now
        then leases[id].(released := Some(leases[id].expires)) else leases[id];
      leases := map id | id in leases
                         && (leases[id].released.None? || leases[id].released.value > now - cfg.history) :: leases[id];
    }

    method PruneRequests(since: Time)
      modifies `requests
      ensures requests == RequestsAfter(old(requests), since)
    {
      var kept := [];
      for i := 0 to |requests|
        invariant kept == RequestsAfter(requests[..i], since) && requests == old(requests)
      {
        assert requests[..i + 1][..i] == requests[..i];
        if requests[i].at > since { kept := kept + [requests[i]]; }
      }
      assert requests[..|requests|] == requests;
      requests := kept;
    }

    /** How many requests of the user the window holds, and the first of them. */
    method RateUsage(user: User, from: Time, to: Time) returns (count: nat, oldest: Option<Time>)
      ensures count == CountIn(requests, user, from, to) && (oldest.Some? <==> count > 0)
      ensures oldest.Some? ==> IsOldest(requests, user, from, to, oldest.value)
    {
      count, oldest := 0, None;
      for i := 0 to |requests|
        invariant count == CountIn(requests[..i], user, from, to) && (oldest.Some? <==> count > 0)
        invariant oldest.Some? ==> IsOldest(requests[..i], user, from, to, oldest.value)
        invariant oldest.None? ==> forall j :: 0 <= j < i ==> !Counts(requests[j], user, from, to)
      {
        assert requests[..i + 1][..i] == requests[..i];
        var r := requests[i];
        if Counts(r, user, from, to) {
          count := count + 1;
          var next := if oldest.None? then r.at else Min(oldest.value, r.at);
          OldestStep(requests[..i], r, user, from, to, oldest, next);
          assert requests[..i + 1] == requests[..i] + [r];
          oldest := Some(next);
        } else if oldest.Some? {
          OldestSkip(requests[..i], r, user, from, to, oldest.value);
          assert requests[..i + 1] == requests[..i] + [r];
        }
      }
      assert requests[..|requests|] == requests;
    }

    /** How many leases are active, and when the first of them expires. */
    method LeaseUsage(who: Option<User>, now: Time) returns (count: nat, earliest: Option<Time>)
      ensures count == |Active(leases, who, now)| && (earliest.Some? <==> count > 0)
      ensures earliest.Some? ==> IsEarliest(leases, who, now, earliest.value)
    {
      var left := Active(leases, who, now);
      count, earliest := |left|, None;
      while left != {}
        invariant left <= Active(leases, who, now)
        invariant earliest.None? ==> left == Active(leases, who, now)
        invariant earliest.Some? ==> exists id :: id in Active(leases, who, now) && leases[id].expires == earliest.value
        invariant earliest.Some? ==>
          forall id :: id in Active(leases, who, now) && id !in left ==> earliest.value <= leases[id].expires
      {
        var id :| id in left;
        left := left - {id};
        earliest := Some(if earliest.None? then leases[id].expires else Min(earliest.value, leases[id].expires));
      }
    }

    /** `acquire`, and `admit_direct_model_request`: the verdict is the one the full history gives. */
    method Acquire(user: User, exempt: bool, retired: bool, newId: Id, now: Time) returns (outcome: Outcome)
      requires Valid() && now >= clock && newId !in grants
      modifies this
      ensures Valid()
      ensures IsVerdict(old(log), old(grants), cfg, user, exempt, retired, newId, now, outcome)
      ensures !exempt && !outcome.Rejected? ==>
        outcome == Leased(newId) && newId in grants && grants[newId] == Lease(user, now, now + cfg.lease, None)
      ensures exempt && !outcome.Rejected? ==> outcome == Passed && grants == old(grants)
      ensures log == LogAfter(old(log), user, now, outcome)
      ensures grants == GrantsAfter(old(grants), cfg, user, now, outcome)
    {
      hide IsOldest, IsEarliest, LeasesOk, RequestsAfter, CountIn, Active;
      if retired { return Rejected(Retired, now + HOUR); }
      Prune(now);
      CountPruned(log, cutoff, user, now - cfg.window, now);
      var count, oldest := RateUsage(user, now - cfg.window, now);
      if count >= cfg.requests {
        OldestPruned(log, cutoff, user, now - cfg.window, now, oldest.value);
        return Rejected(TooMany, oldest.value + cfg.window);
      }
      AppendPruned(log, cutoff, Request(user, now));
      requests, log := requests + [Request(user, now)], log + [Request(user, now)];
      if exempt { return Passed; }
      outcome := Lend(user, newId, now);
    }

    /** The two concurrency caps and the lease. */
    method Lend(user: User, newId: Id, now: Time) returns (outcome: Outcome)
      requires Valid() && now == clock && newId !in grants
      modifies `leases, `grants
      ensures Valid() && grants == GrantsAfter(old(grants), cfg, user, now, outcome)
      ensures if |Active(old(grants), Some(user), now)| >= cfg.userCap then
                outcome.Rejected? && outcome.reason.UserBusy? && IsEarliest(old(grants), Some(user), now, outcome.retryAt)
              else if |Active(old(grants), None, now)| >= cfg.globalCap then
                outcome.Rejected? && outcome.reason.AllBusy? && IsEarliest(old(grants), None, now, outcome.retryAt)
              else outcome == Leased(newId)
    {
      SameActive(leases, grants, clock, Some(user), now);
      SameActive(leases, grants, clock, None, now);
      var own, first := LeaseUsage(Some(user), now);
      if own >= cfg.userCap { return Rejected(UserBusy, first.value); }
      var all, earliest := LeaseUsage(None, now);
      if all >= cfg.globalCap { return Rejected(AllBusy, earliest.value); }
      leases := leases[newId := Lease(user, now, now + cfg.lease, None)];
      grants := grants[newId := Lease(user, now, now + cfg.lease, None)];
      return Leased(newId);
    }

    /** `release`; the direct admission asks for no user. */
    method Release(id: Id, user: Option<User>, now: Time) returns (released: bool)
      requires Valid() && now >= clock
      modifies `leases, `grants, `clock, `cutoff
      ensures Valid() && clock == now
      ensures released ==> id in old(grants) && old(grants)[id].released.None? && (user.Some? ==> old(grants)[id].user == user.value)
      ensures grants == if released then old(grants)[id := old(grants)[id].(released := Some(now))] else old(grants)
      ensures id in Active(old(grants), user, now) ==> released
    {
      clock := now;
      released := id in leases && leases[id].released.None? && (user.None? || leases[id].user == user.value);
      if released {
        leases := leases[id := leases[id].(released := Some(now))];
        grants := grants[id := grants[id].(released := Some(now))];
      }
    }
  }

  lemma OldestStep(before: seq<Request>, r: Request, user: User, from: Time, to: Time, oldest: Option<Time>, next: Time)
    requires Counts(r, user, from, to) && next == if oldest.None? then r.at else Min(oldest.value, r.at)
    requires oldest.Some? ==> IsOldest(before, user, from, to, oldest.value)
    requires oldest.None? ==> forall j :: 0 <= j < |before| ==> !Counts(before[j], user, from, to)
    ensures IsOldest(before + [r], user, from, to, next)
  {
    var all := before + [r];
    assert all[|before|] == r && forall i :: 0 <= i < |before| ==> all[i] == before[i];
  }

  lemma OldestSkip(before: seq<Request>, r: Request, user: User, from: Time, to: Time, oldest: Time)
    requires !Counts(r, user, from, to) && IsOldest(before, user, from, to, oldest)
    ensures IsOldest(before + [r], user, from, to, oldest)
  {
    var all := before + [r];
    assert all[|before|] == r && forall i :: 0 <= i < |before| ==> all[i] == before[i];
  }
}
