/** Whole runs of an admission under one configuration and a clock that does not run backwards. */
module AdmissionRuns {
  import opened Basics
  import opened Admission

  datatype State = State(clock: Time, log: seq<Request>, grants: map<Id, Lease>)

  datatype Op =
    | Ask(user: User, exempt: bool, retired: bool, newId: Id, now: Time, outcome: Outcome)
    | Free(id: Id, now: Time, done: bool)

  ghost predicate Enabled(s: State, cfg: Config, op: Op) {
    op.now >= s.clock && match op
      case Ask(user, exempt, retired, newId, now, outcome) =>
        newId !in s.grants && IsVerdict(s.log, s.grants, cfg, user, exempt, retired, newId, now, outcome)
      case Free(id, _, done) => done ==> id in s.grants && s.grants[id].released.None?
  }

  function Step(s: State, cfg: Config, op: Op): State {
    match op
    case Ask(user, _, _, _, now, outcome) =>
      State(now, LogAfter(s.log, user, now, outcome), GrantsAfter(s.grants, cfg, user, now, outcome))
    case Free(id, now, done) =>
      State(now, s.log, if done && id in s.grants then s.grants[id := s.grants[id].(released := Some(now))] else s.grants)
  }

  // ------------------------------------------------------------- the invariant

  /** Was the lease held at `t`, as seen afterwards? */
  predicate IsHeldAt(l: Lease, who: Option<User>, t: Time) {
    l.acquired <= t < l.expires && (l.released.Some? ==> t < l.released.value) && (who.None? || l.user == who.value)
  }

  function HeldAt(grants: map<Id, Lease>, who: Option<User>, t: Time): set<Id> {
    set id | id in grants && IsHeldAt(grants[id], who, t)
  }

  ghost predicate CapHolds(grants: map<Id, Lease>, who: Option<User>, cap: nat) {
    forall t :: |HeldAt(grants, who, t)| <= cap
  }

  predicate RateAt(log: seq<Request>, user: User, t: Time, cfg: Config) {
    CountIn(log, user, t - cfg.window, t) <= cfg.requests
  }

  ghost predicate RateHolds(log: seq<Request>, cfg: Config) {
    forall user, t :: RateAt(log, user, t, cfg)
  }

  ghost predicate PastOk(s: State) {
    && (forall i :: 0 <= i < |s.log| ==> s.log[i].at <= s.clock)
    && forall id :: id in s.grants ==>
         s.grants[id].acquired <= s.clock && (s.grants[id].released.Some? ==> s.grants[id].released.value <= s.clock)
  }

  ghost predicate CapsOk(s: State, cfg: Config) {
    CapHolds(s.grants, None, cfg.globalCap) && forall user :: CapHolds(s.grants, Some(user), cfg.userCap)
  }

  ghost predicate Inv(s: State, cfg: Config) {
    PastOk(s) && CapsOk(s, cfg) && RateHolds(s.log, cfg)
  }

  /** From now on, nothing is held but what is active now. */
  lemma HeldLater(s: State, who: Option<User>, now: Time, t: Time)
    requires PastOk(s) && s.clock <= now <= t
    ensures HeldAt(s.grants, who, t) <= Active(s.grants, who, now)
  {
  }

  lemma {:induction false} CountLater(log: seq<Request>, user: User, now: Time, t: Time, window: Time)
    requires (forall i :: 0 <= i < |log| ==> log[i].at <= now) && now <= t
    ensures CountIn(log, user, t - window, t) <= CountIn(log, user, now - window, now)
  {
    if log != [] { CountLater(log[..|log| - 1], user, now, t, window); }
  }

  lemma LendKeepsCap(s: State, who: Option<User>, id: Id, lease: Lease, cap: nat)
    requires PastOk(s) && CapHolds(s.grants, who, cap) && id !in s.grants && lease.acquired >= s.clock
    requires (who.None? || lease.user == who.value) ==> |Active(s.grants, who, lease.acquired)| < cap
    ensures CapHolds(s.grants[id := lease], who, cap)
  {
    var after := s.grants[id := lease];
    forall t ensures |HeldAt(after, who, t)| <= cap {
      assert |HeldAt(s.grants, who, t)| <= cap;
      var held := HeldAt(after, who, t);
      if IsHeldAt(lease, who, t) {
        HeldLater(s, who, lease.acquired, t);
        assert held == HeldAt(s.grants, who, t) + {id};
        SubsetSize(HeldAt(s.grants, who, t), Active(s.grants, who, lease.acquired));
      } else {
        assert held == HeldAt(s.grants, who, t);
      }
    }
  }

  lemma ReleaseKeepsCap(s: State, who: Option<User>, id: Id, now: Time, cap: nat)
    requires CapHolds(s.grants, who, cap) && id in s.grants && s.grants[id].released.None?
    ensures CapHolds(s.grants[id := s.grants[id].(released := Some(now))], who, cap)
  {
    var after := s.grants[id := s.grants[id].(released := Some(now))];
    forall t ensures |HeldAt(after, who, t)| <= cap {
      assert |HeldAt(s.grants, who, t)| <= cap;
      SubsetSize(HeldAt(after, who, t), HeldAt(s.grants, who, t));
    }
  }

  lemma RequestKeepsRate(s: State, cfg: Config, user: User, now: Time)
    requires PastOk(s) && RateHolds(s.log, cfg) && now >= s.clock && CountIn(s.log, user, now - cfg.window, now) < cfg.requests
    ensures RateHolds(s.log + [Request(user, now)], cfg)
  {
    var more := s.log + [Request(user, now)];
    forall who, t ensures RateAt(more, who, t, cfg) {
      assert RateAt(s.log, who, t, cfg) && more[..|s.log|] == s.log;
      if t >= now { CountLater(s.log, who, now, t, cfg.window); }
    }
  }

  lemma AskKeepsInv(s: State, cfg: Config, op: Op)
    requires Inv(s, cfg) && op.Ask? && Enabled(s, cfg, op)
    ensures Inv(Step(s, cfg, op), cfg)
  {
    hide CapHolds, RateHolds, IsOldest, IsEarliest, Active, CountIn;
    var s' := Step(s, cfg, op);
    if s'.log != s.log { RequestKeepsRate(s, cfg, op.user, op.now); }
    if op.outcome.Leased? {
      var lease := Lease(op.user, op.now, op.now + cfg.lease, None);
      LendKeepsCap(s, None, op.newId, lease, cfg.globalCap);
      forall user ensures CapHolds(s'.grants, Some(user), cfg.userCap) {
        LendKeepsCap(s, Some(user), op.newId, lease, cfg.userCap);
      }
    }
  }

  lemma FreeKeepsInv(s: State, cfg: Config, op: Op)
    requires Inv(s, cfg) && op.Free? && Enabled(s, cfg, op)
    ensures Inv(Step(s, cfg, op), cfg)
  {
    hide CapHolds, RateHolds;
    if op.done {
      ReleaseKeepsCap(s, None, op.id, op.now, cfg.globalCap);
      forall user ensures CapHolds(Step(s, cfg, op).grants, Some(user), cfg.userCap) {
        ReleaseKeepsCap(s, Some(user), op.id, op.now, cfg.userCap);
      }
    }
  }

  ghost predicate IsRun(cfg: Config, run: seq<State>, ops: seq<Op>) {
    && |run| == |ops| + 1 && run[0].log == [] && run[0].grants == map[]
    && forall i :: 0 <= i < |ops| ==> Enabled(run[i], cfg, ops[i]) && run[i + 1] == Step(run[i], cfg, ops[i])
  }

  lemma EmptyIsFine(s: State, cfg: Config)
    requires s.log == [] && s.grants == map[]
    ensures Inv(s, cfg)
  {
    assert forall who, t :: HeldAt(s.grants, who, t) == {};
  }

  lemma {:induction false} EveryRunKeepsInv(cfg: Config, run: seq<State>, ops: seq<Op>, n: nat)
    requires IsRun(cfg, run, ops) && n < |run|
    ensures Inv(run[n], cfg)
  {
    hide Inv, Step, Enabled;
    if n == 0 {
      EmptyIsFine(run[0], cfg);
    } else {
      EveryRunKeepsInv(cfg, run, ops, n - 1);
      assert Enabled(run[n - 1], cfg, ops[n - 1]) && run[n - 1 + 1] == Step(run[n - 1], cfg, ops[n - 1]);
      if ops[n - 1].Ask? { AskKeepsInv(run[n - 1], cfg, ops[n - 1]); } else { FreeKeepsInv(run[n - 1], cfg, ops[n - 1]); }
    }
  }

  // ------------------------------------------------------------ what it implies

  /** At no instant of a run were more leases held, by one user or by all, than the caps allow, and no
      window, wherever it ends, holds more counted requests of a user than allowed. */
  lemma CapsHoldAtEveryInstant(cfg: Config, run: seq<State>, ops: seq<Op>, n: nat, user: User, t: Time)
    requires IsRun(cfg, run, ops) && n < |run|
    ensures |HeldAt(run[n].grants, None, t)| <= cfg.globalCap && |HeldAt(run[n].grants, Some(user), t)| <= cfg.userCap
    ensures CountIn(run[n].log, user, t - cfg.window, t) <= cfg.requests
  {
    hide IsRun, HeldAt, CountIn;
    EveryRunKeepsInv(cfg, run, ops, n);
    assert CapHolds(run[n].grants, Some(user), cfg.userCap) && RateAt(run[n].log, user, t, cfg);
  }

  ghost function Releases(ops: seq<Op>, id: Id): nat {
    if ops == [] then 0
    else
      var op := ops[|ops| - 1];
      Releases(ops[..|ops| - 1], id) + if op.Free? && op.id == id && op.done then 1 else 0
  }

  /** A lease is released at most once. */
  lemma {:induction false} ReleasedAtMostOnce(cfg: Config, run: seq<State>, ops: seq<Op>, id: Id)
    requires IsRun(cfg, run, ops)
    ensures Releases(ops, id) == if id in run[|ops|].grants && run[|ops|].grants[id].released.Some? then 1 else 0
    decreases |ops|
  {
    hide IsOldest, IsEarliest, Active, CountIn;
    if ops != [] {
      var n := |ops| - 1;
      ReleasedAtMostOnce(cfg, run[..n + 1], ops[..n], id);
      assert Enabled(run[n], cfg, ops[n]) && run[n + 1] == Step(run[n], cfg, ops[n]);
    }
  }

  /** What is active now is what is held now. */
  lemma ActiveIsHeld(s: State, who: Option<User>, now: Time)
    requires PastOk(s) && s.clock <= now
    ensures HeldAt(s.grants, who, now) == Active(s.grants, who, now)
  {
  }

  lemma {:induction false} CountFalls(log: seq<Request>, user: User, now: Time, later: Time, window: Time, i: nat)
    requires (forall j :: 0 <= j < |log| ==> log[j].at <= now) && now <= later
    requires i < |log| && Counts(log[i], user, now - window, now) && log[i].at <= later - window
    ensures CountIn(log, user, later - window, later) < CountIn(log, user, now - window, now)
  {
    var n := |log| - 1;
    if i == n {
      CountLater(log[..n], user, now, later, window);
    } else {
      CountFalls(log[..n], user, now, later, window, i);
    }
  }

  /** When the time a refusal names has come and nothing was admitted meanwhile, the limit that
      refused has room. */
  lemma RetrySuffices(cfg: Config, run: seq<State>, ops: seq<Op>, n: nat, later: Time)
    requires IsRun(cfg, run, ops) && IsConfig(cfg) && n < |ops| && ops[n].Ask? && ops[n].outcome.Rejected?
    requires later >= ops[n].outcome.retryAt && later >= ops[n].now
    ensures var s, user := run[n], ops[n].user;
            match ops[n].outcome.reason
            case Retired => true
            case TooMany => CountIn(s.log, user, later - cfg.window, later) < cfg.requests
            case UserBusy => |Active(s.grants, Some(user), later)| < cfg.userCap
            case AllBusy => |Active(s.grants, None, later)| < cfg.globalCap
  {
    hide IsRun, HeldAt, Active, CountIn, Inv;
    assert Enabled(run[n], cfg, ops[n]) by { RunStep(cfg, run, ops, n); }
    EveryRunKeepsInv(cfg, run, ops, n);
    var s, user, now := run[n], ops[n].user, ops[n].now;
    CapsHoldAtEveryInstant(cfg, run, ops, n, user, now);
    InvPast(s, cfg);
    match ops[n].outcome.reason
    case Retired =>
    case TooMany =>
      var i :| 0 <= i < |s.log| && Counts(s.log[i], user, now - cfg.window, now)
               && s.log[i].at == ops[n].outcome.retryAt - cfg.window;
      CountFalls(s.log, user, now, later, cfg.window, i);
    case UserBusy => RoomLater(s, Some(user), now, later, ops[n].outcome.retryAt);
    case AllBusy => RoomLater(s, None, now, later, ops[n].outcome.retryAt);
  }

  lemma RunStep(cfg: Config, run: seq<State>, ops: seq<Op>, n: nat)
    requires IsRun(cfg, run, ops) && n < |ops|
    ensures n < |run| && Enabled(run[n], cfg, ops[n])
  {
    hide Enabled, Step;
  }

  lemma InvPast(s: State, cfg: Config)
    requires Inv(s, cfg)
    ensures PastOk(s)
  {
    hide PastOk, CapsOk, RateHolds;
  }

  lemma RoomLater(s: State, who: Option<User>, now: Time, later: Time, earliest: Time)
    requires PastOk(s) && s.clock <= now <= later && earliest <= later && IsEarliest(s.grants, who, now, earliest)
    ensures |Active(s.grants, who, later)| < |HeldAt(s.grants, who, now)|
  {
    ActiveIsHeld(s, who, now);
    var id :| id in Active(s.grants, who, now) && s.grants[id].expires == earliest;
    SubsetSize(Active(s.grants, who, later), Active(s.grants, who, now) - {id});
  }

  /** The direct rounding in a run: a refused caller that comes back exactly when it was told to is
      refused again, because 1.0005 seconds were reported as one. */
  lemma DirectRetryCanFallShort(user: User, id: Id) returns (cfg: Config, run: seq<State>, ops: seq<Op>)
    ensures IsConfig(cfg) && IsRun(cfg, run, ops) && |ops| == 3 && ops[1].Ask? && ops[2].Ask?
    ensures ops[1].outcome.Rejected? && ops[1].outcome.reason.TooMany? && ops[2].outcome.Rejected?
    ensures ops[2].now == ops[1].now + DirectRetry(ops[1].outcome.retryAt - ops[1].now) * SECOND
  {
    cfg := Config(1, MINUTE, 1, 1, MINUTE, MINUTE);
    var refusal := Rejected(TooMany, MINUTE);
    var log := [Request(user, 0)];
    ops := [Ask(user, true, false, id, 0, Passed), Ask(user, true, false, id, 58_999_500, refusal),
            Ask(user, true, false, id, 59_999_500, refusal)];
    run := [State(0, [], map[]), State(0, log, map[]), State(58_999_500, log, map[]), State(59_999_500, log, map[])];
    assert [] + [Request(user, 0)] == log && log[..0] == [];
    OnlyRequest(user, 58_999_500 - MINUTE, 58_999_500);
    OnlyRequest(user, 59_999_500 - MINUTE, 59_999_500);
    assert DirectRetry(MINUTE - 58_999_500) == 1;
  }

  lemma OnlyRequest(user: User, from: Time, to: Time)
    requires from < 0 <= to
    ensures CountIn([Request(user, 0)], user, from, to) == 1 && IsOldest([Request(user, 0)], user, from, to, 0)
  {
    assert [Request(user, 0)][..0] == [] && CountIn([], user, from, to) == 0;
    assert Counts([Request(user, 0)][0], user, from, to);
  }
}
