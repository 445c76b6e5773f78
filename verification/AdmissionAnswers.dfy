/** Who is admitted, what being admitted leaves behind, and why a refusal names the instant it does. */
module AdmissionAnswers {
  import opened Basics
  import opened Admission
  import opened AdmissionRuns

  /** The leases somebody, or everybody, has out at an instant. */
  function Running(grants: map<Id, Lease>, who: Option<User>, now: Time): set<Id> {
    set id | id in grants && grants[id].released.None? && now < grants[id].expires
             && (who.Some? ==> grants[id].user == who.value)
  }

  function Recent(log: seq<Request>, user: User, window: Time, now: Time): nat {
    |set i | 0 <= i < |log| && log[i].user == user && now - window < log[i].at <= now|
  }

  lemma {:induction false} CountIsRecent(log: seq<Request>, user: User, window: Time, now: Time)
    ensures CountIn(log, user, now - window, now) == Recent(log, user, window, now)
  {
    var all := set i | 0 <= i < |log| && log[i].user == user && now - window < log[i].at <= now;
    if log == [] {
      assert all == {};
    } else {
      var n := |log| - 1;
      CountIsRecent(log[..n], user, window, now);
      var before := set i | 0 <= i < |log[..n]| && log[..n][i].user == user && now - window < log[..n][i].at <= now;
      assert all == before + (if Counts(log[n], user, now - window, now) then {n} else {});
    }
  }

  lemma ActiveIsRunning(grants: map<Id, Lease>, who: Option<User>, now: Time)
    ensures Active(grants, who, now) == Running(grants, who, now)
  {
  }

  /** The window has room for one more request of the user. */
  predicate HasRate(log: seq<Request>, cfg: Config, user: User, now: Time) {
    Recent(log, user, cfg.window, now) < cfg.requests
  }

  /** Both caps have room for one more lease. */
  predicate HasSlot(grants: map<Id, Lease>, cfg: Config, user: User, now: Time) {
    |Running(grants, Some(user), now)| < cfg.userCap && |Running(grants, None, now)| < cfg.globalCap
  }

  /** A request passes exactly when the account is not retired, its window has room and, unless it needs
      none, a slot is free. What needs a lease and passes has one, under the new id and in its own name,
      for the configured time; what needs none leaves the leases alone. */
  lemma AdmittedExactlyWhen(log: seq<Request>, grants: map<Id, Lease>, cfg: Config, user: User, exempt: bool, retired: bool,
                            newId: Id, now: Time, outcome: Outcome)
    requires IsVerdict(log, grants, cfg, user, exempt, retired, newId, now, outcome)
    ensures var after := GrantsAfter(grants, cfg, user, now, outcome);
            && (!outcome.Rejected? <==> !retired && HasRate(log, cfg, user, now) && (exempt || HasSlot(grants, cfg, user, now)))
            && (!outcome.Rejected? && !exempt ==>
                  outcome == Leased(newId) && newId in after && after.Keys == grants.Keys + {newId}
                  && after[newId].user == user && after[newId].released.None?
                  && after[newId].acquired == now && after[newId].expires == now + cfg.lease)
            && (!outcome.Rejected? && exempt ==> outcome == Passed && after == grants)
            && (outcome.Rejected? ==> after == grants)
            && forall id :: id in grants && id != newId ==> id in after && after[id] == grants[id]
  {
    hide IsOldest, IsEarliest, CountIn, Recent, Active, Running;
    CountIsRecent(log, user, cfg.window, now);
    ActiveIsRunning(grants, Some(user), now);
    ActiveIsRunning(grants, None, now);
  }

  /** A refusal gives the first of its reasons, and only requests that got past the window are counted
      in it, admitted or not. */
  lemma ReasonIsTrue(log: seq<Request>, grants: map<Id, Lease>, cfg: Config, user: User, exempt: bool, retired: bool,
                     newId: Id, now: Time, outcome: Outcome)
    requires IsVerdict(log, grants, cfg, user, exempt, retired, newId, now, outcome)
    ensures var refused := outcome.Rejected?;
            && (refused && outcome.reason.Retired? <==> retired)
            && (refused && outcome.reason.TooMany? <==> !retired && !HasRate(log, cfg, user, now))
            && (refused && outcome.reason.UserBusy? ==> !exempt && |Running(grants, Some(user), now)| >= cfg.userCap)
            && (refused && outcome.reason.AllBusy? ==>
                  !exempt && |Running(grants, Some(user), now)| < cfg.userCap && |Running(grants, None, now)| >= cfg.globalCap)
            && (retired ==> outcome.retryAt == now + HOUR)
            && LogAfter(log, user, now, outcome)
               == if retired || !HasRate(log, cfg, user, now) then log else log + [Request(user, now)]
  {
    hide IsOldest, IsEarliest, CountIn, Recent, Active, Running;
    CountIsRecent(log, user, cfg.window, now);
    ActiveIsRunning(grants, Some(user), now);
    ActiveIsRunning(grants, None, now);
  }

  /** The window keeps what it holds until the oldest counted request leaves it. */
  lemma {:induction false} WindowStays(log: seq<Request>, user: User, window: Time, now: Time, t: Time, oldest: Time)
    requires now <= t < oldest + window
    requires forall i :: 0 <= i < |log| && Counts(log[i], user, now - window, now) ==> oldest <= log[i].at
    ensures CountIn(log, user, t - window, t) >= CountIn(log, user, now - window, now)
  {
    if log != [] {
      var n := |log| - 1;
      WindowStays(log[..n], user, window, now, t, oldest);
      assert Counts(log[n], user, now - window, now) ==> Counts(log[n], user, t - window, t);
    }
  }

  /** With nothing admitted or released meanwhile, the limit that refused goes on refusing until the very
      instant the refusal names. */
  lemma RetryIsNoLater(log: seq<Request>, grants: map<Id, Lease>, cfg: Config, user: User, exempt: bool, newId: Id,
                       now: Time, outcome: Outcome, t: Time)
    requires IsVerdict(log, grants, cfg, user, exempt, false, newId, now, outcome) && outcome.Rejected?
    requires now <= t < outcome.retryAt
    ensures match outcome.reason
            case Retired => false
            case TooMany => !HasRate(log, cfg, user, t)
            case UserBusy => |Running(grants, Some(user), t)| >= cfg.userCap
            case AllBusy => |Running(grants, None, t)| >= cfg.globalCap
  {
    hide CountIn, Recent, Active, Running;
    CountIsRecent(log, user, cfg.window, t);
    if outcome.reason.TooMany? {
      WindowStays(log, user, cfg.window, now, t, outcome.retryAt - cfg.window);
    } else {
      LeasesStay(grants, if outcome.reason.UserBusy? then Some(user) else None, now, t, outcome.retryAt);
    }
  }

  lemma LeasesStay(grants: map<Id, Lease>, who: Option<User>, now: Time, t: Time, earliest: Time)
    requires IsEarliest(grants, who, now, earliest) && now <= t < earliest
    ensures |Active(grants, who, now)| <= |Running(grants, who, t)|
  {
    SubsetSize(Active(grants, who, now), Running(grants, who, t));
  }

  /** In every state of a run, whoever was admitted to something that needs a lease has it on record, and
      while it runs it is among the leases the caps bound. */
  lemma {:induction false} AdmittedAreHeld(cfg: Config, run: seq<State>, ops: seq<Op>, n: nat, i: nat, t: Time)
    requires IsRun(cfg, run, ops) && i < n < |run| && i < |ops|
    requires ops[i].Ask? && !ops[i].exempt && !ops[i].outcome.Rejected?
    requires ops[i].now <= t < ops[i].now + cfg.lease
    ensures var grants, id := run[n].grants, ops[i].newId;
            && id in grants && grants[id].user == ops[i].user && grants[id].acquired == ops[i].now
            && grants[id].expires == ops[i].now + cfg.lease
            && (grants[id].released.None? || t < grants[id].released.value ==>
                  id in HeldAt(grants, Some(ops[i].user), t) && id in HeldAt(grants, None, t))
    decreases n
  {
    hide IsOldest, IsEarliest, CountIn, Active, HasRate, HasSlot, Running;
    assert Enabled(run[n - 1], cfg, ops[n - 1]) && run[n - 1 + 1] == Step(run[n - 1], cfg, ops[n - 1]);
    if n == i + 1 {
      AdmittedExactlyWhen(run[i].log, run[i].grants, cfg, ops[i].user, false, ops[i].retired, ops[i].newId, ops[i].now, ops[i].outcome);
    } else {
      AdmittedAreHeld(cfg, run, ops, n - 1, i, t);
    }
  }

  /** Each such request has a lease of its own. */
  lemma AdmittedAreDistinct(cfg: Config, run: seq<State>, ops: seq<Op>, i: nat, j: nat)
    requires IsRun(cfg, run, ops) && i < j < |ops| && IsConfig(cfg)
    requires ops[i].Ask? && !ops[i].exempt && !ops[i].outcome.Rejected? && ops[j].Ask?
    ensures ops[i].newId != ops[j].newId
  {
    hide IsVerdict;
    AdmittedAreHeld(cfg, run, ops, j, i, ops[i].now);
    assert Enabled(run[j], cfg, ops[j]);
  }
}
