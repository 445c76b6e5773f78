/** The translation cache as the database holds it. Every method is proved to take exactly the step of
    `Localization` it is named after. */
module LocalizationCache {
  import opened Basics
  import opened Localization
  import opened LocalizationRuns

  const ROUNDS := 32

  /** The rounds of a claim, until one of them leases a row. */
  function Rounds(s: State, rules: Rules, picks: seq<Id>, budget: User -> Option<Time>, token: Token, now: Time)
    : (State, Option<Claim>)
  {
    if picks == [] then (s, None)
    else
      var n := |picks| - 1;
      var (before, claim) := Rounds(s, rules, picks[..n], budget, token, now);
      if claim.Some? || picks[n] !in before.rows || picks[n] !in before.advice then (before, claim)
      else Consider(before, rules, picks[n], budget(picks[n].0), token, now)
  }

  /** Each round takes the due row that comes first. */
  ghost predicate ArePicks(s: State, rules: Rules, picks: seq<Id>, budget: User -> Option<Time>, token: Token, now: Time, max: nat)
  {
    forall i :: 0 <= i < |picks| ==>
      var (before, claim) := Rounds(s, rules, picks[..i], budget, token, now);
      claim.None? && IsPick(before, now, max, Some(picks[i]))
  }

  /** A claim as a whole keeps what its rounds keep. */
  lemma {:induction false} RoundsKeepInv(s: State, rules: Rules, picks: seq<Id>, budget: User -> Option<Time>, token: Token,
                                         now: Time, max: nat)
    requires Inv(s, rules, max) && ArePicks(s, rules, picks, budget, token, now, max) && token !in s.claims
    ensures Inv(Rounds(s, rules, picks, budget, token, now).0, rules, max)
    ensures Rounds(s, rules, picks, budget, token, now).1.None? ==> Rounds(s, rules, picks, budget, token, now).0.claims == s.claims
  {
    hide Inv, IsPick, IsDue, Consider;
    if picks != [] {
      var n := |picks| - 1;
      FewerPicks(s, rules, picks, budget, token, now, max);
      RoundsKeepInv(s, rules, picks[..n], budget, token, now, max);
      var (before, claim) := Rounds(s, rules, picks[..n], budget, token, now);
      PickIsDue(before, now, max, picks[n]);
      ConsiderKeepsInv(before, rules, max, picks[n], budget(picks[n].0), token, now);
      ConsiderClaims(before, rules, picks[n], budget(picks[n].0), token, now);
    }
  }

  lemma FewerPicks(s: State, rules: Rules, picks: seq<Id>, budget: User -> Option<Time>, token: Token, now: Time, max: nat)
    requires ArePicks(s, rules, picks, budget, token, now, max) && picks != []
    ensures var n := |picks| - 1;
            && ArePicks(s, rules, picks[..n], budget, token, now, max) && Rounds(s, rules, picks[..n], budget, token, now).1.None?
            && IsPick(Rounds(s, rules, picks[..n], budget, token, now).0, now, max, Some(picks[n]))
  {
    hide IsPick, Rounds;
    var n := |picks| - 1;
    assert forall i :: 0 <= i < n ==> picks[..n][i] == picks[i] && picks[..n][..i] == picks[..i];
  }

  lemma ConsiderClaims(s: State, rules: Rules, id: Id, until: Option<Time>, token: Token, now: Time)
    requires id in s.rows && id in s.advice
    ensures Consider(s, rules, id, until, token, now).1.None? ==> Consider(s, rules, id, until, token, now).0.claims == s.claims
  {
  }

  class Cache {
    const rules: Rules
    var users: set<User>
    var advice: map<Id, Advice>
    var rows: map<Id, Row>
    ghost var claims: map<Token, (Claim, nat)>
    ghost var version: map<Id, nat>
    ghost var made: map<Id, (Token, Bytes)>

    ghost function View(): State
      reads this
    {
      State(users, advice, rows, claims, version, made)
    }

    constructor (rules: Rules, users: set<User>)
      ensures View() == State(users, map[], map[], map[], map[], map[]) && this.rules == rules
    {
      this.rules, this.users, advice, rows, claims, version, made := rules, users, map[], map[], map[], map[], map[];
    }

    method Reset(id: Id, hash: Digest, now: Time)
      modifies `rows, `version
      ensures View() == Localization.Reset(old(View()), id, hash, now)
    {
      rows := rows[id := FreshRow(hash, now)];
      version := version[id := (if id in version then version[id] else 0) + 1];
    }

    /** `_upsert_advice_localization_locked` */
    method Upsert(id: Id, now: Time)
      requires id in advice
      modifies `rows, `version
      ensures View() == Localization.Upsert(old(View()), rules, id, now)
    {
      var source := advice[id].source;
      if rules.isNative(source) {
        rows := rows - {id};
      } else if id !in rows || rows[id].hash != Sha256(source) {
        Reset(id, Sha256(source), now);
      }
    }

    /** `update_advice` */
    method Revise(id: Id, source: Bytes, now: Time)
      modifies `advice, `rows, `version
      ensures View() == Localization.Revise(old(View()), rules, id, source, now)
    {
      if id in advice {
        advice := advice[id := advice[id].(source := source)];
        if id.0 in users { Upsert(id, now); }
      }
    }

    /** `enqueue_advice_localizations`: every published advice of one account, one after the other. */
    method EnqueueAll(user: User, now: Time) returns (ghost order: seq<Id>)
      modifies `rows, `version
      ensures View() == EnqueuedAll(old(View()), rules, order, now)
      ensures forall id :: id in old(advice) && id.0 == user && !old(advice)[id].provisional && user in users ==> id in order
    {
      ghost var s := View();
      order := [];
      if user !in users { return; }
      var left := set id | id in advice && id.0 == user && !advice[id].provisional;
      while left != {}
        invariant View() == EnqueuedAll(s, rules, order, now)
        invariant left <= set id | id in advice && id.0 == user && !advice[id].provisional
        invariant forall id :: id in advice && id.0 == user && !advice[id].provisional ==> id in left || id in order
      {
        var id :| id in left;
        left := left - {id};
        Upsert(id, now);
        assert (order + [id])[..|order|] == order;
        order := order + [id];
      }
    }

    method Lapse(now: Time, max: nat)
      modifies `rows
      ensures View() == Localization.Lapse(old(View()), now, max)
    {
      rows := map id | id in rows :: if HasLapsed(rows[id], now) then LapsedRow(rows[id], now, max) else rows[id];
    }

    method Exhaust(max: nat)
      modifies `rows
      ensures View() == Localization.Exhaust(old(View()), max)
    {
      rows := map id | id in rows ::
        if rows[id].status.Pending? && rows[id].attempts >= max
        then rows[id].(status := Unavailable, lease := None) else rows[id];
    }

    /** The due row that comes first. */
    method Pick(now: Time, max: nat) returns (pick: Option<Id>)
      ensures IsPick(View(), now, max, pick)
    {
      pick := None;
      var left := set id | id in rows && rows[id].status.Pending? && rows[id].next <= now && rows[id].attempts < max
                           && id in advice && !advice[id].provisional && id.0 in users;
      while left != {}
        invariant forall id :: id in left ==> IsDue(View(), id, now, max)
        invariant pick.Some? ==> IsDue(View(), pick.value, now, max)
        invariant forall id :: IsDue(View(), id, now, max) && id !in left ==> pick.Some? && NotAfter(View(), pick.value, id)
      {
        var id :| id in left;
        left := left - {id};
        if pick.None? {
          pick := Some(id);
        } else {
          var x, y := rows[id], rows[pick.value];
          if x.next < y.next || (x.next == y.next && (x.attempts < y.attempts
             || (x.attempts == y.attempts && advice[id].created >= advice[pick.value].created))) {
            pick := Some(id);
          }
        }
      }
    }

    /** One round of a claim. */
    method Consider(id: Id, until: Option<Time>, token: Token, now: Time) returns (claim: Option<Claim>)
      requires id in rows && id in advice
      modifies `rows, `version, `claims
      ensures (View(), claim) == Localization.Consider(old(View()), rules, id, until, token, now)
    {
      var source := advice[id].source;
      if until.Some? {
        rows := map k | k in rows ::
          if k.0 == id.0 && rows[k].status.Pending? && rows[k].next < until.value
          then rows[k].(next := until.value) else rows[k];
        return None;
      }
      if rules.isNative(source) {
        rows := rows - {id};
        return None;
      }
      if Sha256(source) != rows[id].hash {
        Reset(id, Sha256(source), now);
        return None;
      }
      rows := rows[id := rows[id].(status := Running, attempts := rows[id].attempts + 1, lease := Some(token), expires := now + LEASE)];
      var given := Localization.Claim(id, rows[id].hash, rows[id].attempts, token, source);
      claims := claims[token := (given, VersionOf(View(), id))];
      return Some(given);
    }

    /** `claim_next_advice_localization`; `busy` says that an analysis job is due, `budget` until when a
        user's daily budget is used up. */
    method Claim(now: Time, max: nat, busy: bool, budget: User -> Option<Time>, token: Token)
      returns (claim: Option<Claim>, ghost picks: seq<Id>)
      modifies `rows, `version, `claims
      ensures ArePicks(Opened(old(View()), now, max, busy), rules, picks, budget, token, now, max)
      ensures (View(), claim) == Rounds(Opened(old(View()), now, max, busy), rules, picks, budget, token, now)
      ensures busy ==> picks == []
      ensures |picks| <= 32 && (!busy && claim.None? && |picks| < 32 ==> IsPick(View(), now, max, None))
    {
      hide Localization.Lapse, Localization.Exhaust, Localization.Consider, IsPick, IsDue, ArePicks, Rounds;
      picks, claim := [], None;
      Lapse(now, max);
      NoPicks(View(), rules, budget, token, now, max);
      if busy { return; }
      Exhaust(max);
      ghost var s := View();
      NoPicks(s, rules, budget, token, now, max);
      var round, found := 0, true;
      while round < ROUNDS && claim.None? && found
        invariant round == |picks| <= ROUNDS && ArePicks(s, rules, picks, budget, token, now, max)
        invariant (View(), claim) == Rounds(s, rules, picks, budget, token, now)
        invariant !found ==> claim.None? && IsPick(View(), now, max, None)
        decreases ROUNDS - round, found
      {
        var pick := Pick(now, max);
        if pick.None? {
          found := false;
        } else {
          OneMorePick(s, rules, picks, pick.value, budget, token, now, max);
          picks := picks + [pick.value];
          claim := Consider(pick.value, budget(pick.value.0), token, now);
          round := round + 1;
        }
      }
      assert |picks| < ROUNDS && claim.None? ==> !found;
    }

    /** `complete_advice_localization` */
    method Complete(c: Claim, proposed: Bytes, now: Time) returns (published: bool)
      modifies `rows, `version, `made
      ensures (View(), published) == Localization.Complete(old(View()), rules, c, proposed, now)
    {
      if c.id !in advice || advice[c.id].provisional { return false; }
      var source := advice[c.id].source;
      var held := c.id in rows && rows[c.id].status.Running? && rows[c.id].lease == Some(c.token);
      if Sha256(source) != c.hash {
        if held { Reset(c.id, Sha256(source), now); }
        return false;
      }
      var text := rules.accepts(source, proposed);
      if text.None? || !held || rows[c.id].hash != c.hash { return false; }
      rows := rows[c.id := rows[c.id].(status := Ready, text := text, lease := None, next := now)];
      made := made[c.id := (c.token, proposed)];
      return true;
    }

    /** `fail_advice_localization` */
    method Fail(c: Claim, retryable: bool, delay: Time, max: nat, now: Time) returns (changed: bool)
      modifies `rows
      ensures (View(), changed) == Localization.Fail(old(View()), c, retryable, delay, max, now)
    {
      changed := c.id in rows && rows[c.id].status.Running? && rows[c.id].lease == Some(c.token) && rows[c.id].hash == c.hash;
      if changed {
        var status := if retryable && c.attempt < max then Pending else Unavailable;
        rows := rows[c.id := rows[c.id].(status := status, next := now + Max(0, Min(DAY, delay)), text := None, lease := None)];
      }
    }
  }

  function EnqueuedAll(s: State, rules: Rules, order: seq<Id>, now: Time): State {
    if order == [] then s
    else Enqueue(EnqueuedAll(s, rules, order[..|order| - 1], now), rules, order[|order| - 1], now)
  }

  lemma PickIsDue(s: State, now: Time, max: nat, id: Id)
    requires IsPick(s, now, max, Some(id))
    ensures id in s.rows && id in s.advice && IsDue(s, id, now, max)
  {
  }

  lemma NoPicks(s: State, rules: Rules, budget: User -> Option<Time>, token: Token, now: Time, max: nat)
    ensures ArePicks(s, rules, [], budget, token, now, max) && Rounds(s, rules, [], budget, token, now) == (s, None)
  {
  }

  lemma OneMorePick(s: State, rules: Rules, picks: seq<Id>, pick: Id, budget: User -> Option<Time>, token: Token, now: Time, max: nat)
    requires ArePicks(s, rules, picks, budget, token, now, max) && Rounds(s, rules, picks, budget, token, now).1.None?
    requires IsPick(Rounds(s, rules, picks, budget, token, now).0, now, max, Some(pick))
    ensures ArePicks(s, rules, picks + [pick], budget, token, now, max)
    ensures var before := Rounds(s, rules, picks, budget, token, now).0;
            && pick in before.rows && pick in before.advice
            && Rounds(s, rules, picks + [pick], budget, token, now) == Consider(before, rules, pick, budget(pick.0), token, now)
  {
    hide IsPick, Consider;
    PickIsDue(Rounds(s, rules, picks, budget, token, now).0, now, max, pick);
    var more := picks + [pick];
    assert more[..|picks|] == picks;
    forall i | 0 <= i < |more|
      ensures Rounds(s, rules, more[..i], budget, token, now).1.None?
              && IsPick(Rounds(s, rules, more[..i], budget, token, now).0, now, max, Some(more[i]))
    {
      if i < |picks| { assert more[..i] == picks[..i]; } else { assert more[..i] == picks; }
    }
  }
}
