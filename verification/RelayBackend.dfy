/** The backend half of the relay: one transaction that joins a business mutation and its replay
    receipt, although the repository methods called inside it own BEGIN, commit and rollback. */
module RelayBackend {
  import opened Basics

  type User = string
  type MessageId = string

  const MAX_RESPONSE_BYTES := 512 * 1024

  /** A message the phone sent; `canonical` is the form the backend hashes. */
  datatype Request = Request(sender: string, messageId: MessageId, operation: string, body: Bytes, canonical: Bytes)

  datatype Response = Response(id: string, sender: string, inReplyTo: MessageId, operation: string, ok: bool, text: Bytes)

  datatype Receipt = Receipt(hash: Digest, response: Response)

  /** What repository methods do to the connection they are given during the callback. */
  datatype Action<!B> = Write(effect: B -> B) | Begin | Commit | Rollback

  /** How `apply` ends: a response, a refusal it turns into an `ok=false` response, or an
      exception it does not handle. */
  datatype Verdict = Accepted(response: Response) | Refused(response: Response) | Raised

  datatype Script<!B> = Script(actions: seq<Action<B>>, verdict: Verdict)

  /** The durable tables. */
  datatype Ledger<B> = Ledger(business: B, receipts: map<(User, MessageId), Receipt>)

  datatype Outcome = Replied(response: Response) | Conflict | Failed

  // ------------------------------------------------ nested transaction control

  /** The proxied connection: BEGIN and commit do nothing, rollback returns to the savepoint. */
  function Effect<B>(actions: seq<Action<B>>, savepoint: B): B {
    if actions == [] then savepoint
    else
      var work, last := Effect(actions[..|actions| - 1], savepoint), actions[|actions| - 1];
      match last
      case Write(effect) => effect(work)
      case Rollback => savepoint
      case _ => work
  }

  /** The positions of the writes that are left at the end, in order. */
  function Surviving<B>(actions: seq<Action<B>>): seq<nat> {
    if actions == [] then []
    else
      var n := |actions| - 1;
      var before := Surviving(actions[..n]);
      match actions[n]
      case Write(_) => before + [n]
      case Rollback => []
      case _ => before
  }

  predicate AreWrites<B>(actions: seq<Action<B>>, positions: seq<nat>) {
    forall i :: 0 <= i < |positions| ==> positions[i] < |actions| && actions[positions[i]].Write?
  }

  function Replay<B>(actions: seq<Action<B>>, positions: seq<nat>, start: B): B
    requires AreWrites(actions, positions)
  {
    if positions == [] then start
    else
      var last := positions[|positions| - 1];
      actions[last].effect(Replay(actions, positions[..|positions| - 1], start))
  }

  /** A write is left at the end exactly when no rollback comes after it. */
  lemma {:induction false} SurvivesExactlyWhen<B>(actions: seq<Action<B>>, k: nat)
    requires k < |actions|
    ensures k in Surviving(actions) <==>
            actions[k].Write? && forall j :: k < j < |actions| ==> !actions[j].Rollback?
    decreases |actions|
  {
    var n := |actions| - 1;
    var before := actions[..n];
    if k < n {
      SurvivesExactlyWhen(before, k);
      assert forall j :: k < j < n ==> before[j] == actions[j];
    } else {
      SurvivingAreWrites(before);
    }
  }

  lemma {:induction false} SurvivingAreWrites<B>(actions: seq<Action<B>>)
    ensures AreWrites(actions, Surviving(actions))
    decreases |actions|
  {
    if actions != [] { SurvivingAreWrites(actions[..|actions| - 1]); }
  }

  /** The net effect of a callback is that of its surviving writes, one after the other. */
  lemma {:induction false} EffectIsSurvivingWrites<B>(actions: seq<Action<B>>, savepoint: B)
    ensures AreWrites(actions, Surviving(actions))
    ensures Effect(actions, savepoint) == Replay(actions, Surviving(actions), savepoint)
    decreases |actions|
  {
    SurvivingAreWrites(actions);
    if actions != [] {
      var n := |actions| - 1;
      var before := actions[..n];
      EffectIsSurvivingWrites(before, savepoint);
      ReplayPrefix(actions, n, Surviving(before), savepoint);
      if actions[n].Write? {
        assert Surviving(actions)[..|Surviving(before)|] == Surviving(before);
      }
    }
  }

  lemma {:induction false} ReplayPrefix<B>(actions: seq<Action<B>>, n: nat, positions: seq<nat>, start: B)
    requires n <= |actions| && AreWrites(actions[..n], positions)
    ensures AreWrites(actions, positions)
    ensures Replay(actions[..n], positions, start) == Replay(actions, positions, start)
    decreases |positions|
  {
    if positions != [] {
      ReplayPrefix(actions, n, positions[..|positions| - 1], start);
    }
  }

  // ------------------------------------------------------ atomic_relay_request

  function Apply<B>(l: Ledger<B>, user: User, writable: bool, message: MessageId, hash: Digest,
                    script: Script<B>): (Ledger<B>, Outcome)
  {
    var key := (user, message);
    if !writable then (l, Failed)
    else if key in l.receipts then
      if l.receipts[key].hash != hash then (l, Conflict) else (l, Replied(l.receipts[key].response))
    else if script.verdict.Raised? || |script.verdict.response.text| > MAX_RESPONSE_BYTES then (l, Failed)
    else
      var business := if script.verdict.Refused? then l.business else Effect(script.actions, l.business);
      (Ledger(business, l.receipts[key := Receipt(hash, script.verdict.response)]), Replied(script.verdict.response))
  }

  /** The verdict carries the flag `apply` puts into its response. */
  predicate IsHonest<B>(script: Script<B>) {
    script.verdict.Raised? || (script.verdict.response.ok <==> script.verdict.Accepted?)
  }

  /** `ok=true` does not mean that what the operation wrote is there: an inner method that raised
      has rolled back to the savepoint, and its caller went on. */
  lemma AcceptedMayHaveWrittenNothing(l: Ledger<set<string>>, user: User, message: MessageId, hash: Digest,
                                      response: Response, event: string)
    requires (user, message) !in l.receipts && response.ok && |response.text| <= MAX_RESPONSE_BYTES
    requires event !in l.business
    ensures var insert := Write((rows: set<string>) => rows + {event});
            var (after, outcome) := Apply(l, user, true, message, hash,
                                          Script([Begin, insert, Commit, Begin, Rollback], Accepted(response)));
            outcome == Replied(response) && event !in after.business
  {
    var insert := Write((rows: set<string>) => rows + {event});
    var actions := [Begin, insert, Commit, Begin, Rollback];
    assert actions[4] == Rollback;
    assert Effect(actions, l.business) == l.business;
  }

  // ------------------------------------------------------------- whole runs

  /** One transaction on the account's database: a relay request, or any other local change. */
  datatype Op<!B> =
    | Relay(user: User, writable: bool, message: MessageId, hash: Digest, script: Script<B>)
    | Local(change: B -> B)

  function Step<B>(l: Ledger<B>, op: Op<B>): Ledger<B> {
    match op
    case Relay(user, writable, message, hash, script) => Apply(l, user, writable, message, hash, script).0
    case Local(change) => l.(business := change(l.business))
  }

  function RunOf<B>(l: Ledger<B>, ops: seq<Op<B>>): Ledger<B> {
    if ops == [] then l else Step(RunOf(l, ops[..|ops| - 1]), ops[|ops| - 1])
  }

  /** The relay operation `op` runs its callback to the end in state `l`. */
  predicate Executes<B>(l: Ledger<B>, op: Op<B>) {
    op.Relay? && op.writable && (op.user, op.message) !in l.receipts
    && !op.script.verdict.Raised? && |op.script.verdict.response.text| <= MAX_RESPONSE_BYTES
  }

  /** The operations that had an effect, in commit order. */
  function Committed<B>(l: Ledger<B>, ops: seq<Op<B>>): seq<Op<B>> {
    if ops == [] then []
    else
      var n := |ops| - 1;
      var before := Committed(l, ops[..n]);
      if ops[n].Local? || Executes(RunOf(l, ops[..n]), ops[n]) then before + [ops[n]] else before
  }

  /** What one committed operation does to the business tables. */
  function Change<B>(b: B, op: Op<B>): B {
    match op
    case Local(change) => change(b)
    case Relay(_, _, _, _, script) => if script.verdict.Accepted? then Effect(script.actions, b) else b
  }

  function Fold<B>(b: B, log: seq<Op<B>>): B {
    if log == [] then b else Change(Fold(b, log[..|log| - 1]), log[|log| - 1])
  }

  predicate Names<B>(op: Op<B>, key: (User, MessageId)) {
    op.Relay? && (op.user, op.message) == key
  }

  /** The receipt of `key` is the one its committed operation wrote. */
  predicate IsReceiptOf<B>(op: Op<B>, receipt: Receipt) {
    op.Relay? && !op.script.verdict.Raised? && receipt == Receipt(op.hash, op.script.verdict.response)
  }

  /** A step changes the business tables as its operation says, if it commits, and not at all otherwise;
      only a relay operation that runs to the end leaves a receipt. */
  lemma OneMoreCommitted<B>(l: Ledger<B>, op: Op<B>)
    ensures Step(l, op).business == if op.Local? || Executes(l, op) then Change(l.business, op) else l.business
    ensures Step(l, op).receipts == if Executes(l, op)
                                    then l.receipts[(op.user, op.message) := Receipt(op.hash, op.script.verdict.response)]
                                    else l.receipts
  {
  }

  /** The log has each key at most once, exactly when it has a receipt, and that is the one the
      logged operation wrote. */
  ghost predicate Explains<B>(log: seq<Op<B>>, receipts: map<(User, MessageId), Receipt>) {
    && (forall i, j, key :: 0 <= i < j < |log| && Names(log[i], key) ==> !Names(log[j], key))
    && (forall i, key :: 0 <= i < |log| && Names(log[i], key) ==> key in receipts && IsReceiptOf(log[i], receipts[key]))
    && (forall key :: key in receipts ==> exists i :: 0 <= i < |log| && Names(log[i], key))
  }

  lemma OneMoreExplained<B>(l: Ledger<B>, log: seq<Op<B>>, op: Op<B>)
    requires Explains(log, l.receipts) && (op.Local? || Executes(l, op))
    ensures Explains(log + [op], Step(l, op).receipts)
  {
    OneMoreCommitted(l, op);
    var more, after := log + [op], Step(l, op).receipts;
    hide Step, Apply, Effect;
    assert more[|log|] == op;
    forall key | key in after ensures exists i :: 0 <= i < |more| && Names(more[i], key) {
      if key in l.receipts {
        var i :| 0 <= i < |log| && Names(log[i], key);
        assert Names(more[i], key);
      } else {
        assert Names(more[|log|], key);
      }
    }
  }

  /** In every run, whatever is resent, conflicting or refused: the business state is the fold of
      the committed operations; a key is committed at most once, exactly when it has a receipt,
      and the receipt is the one that operation produced. */
  lemma {:induction false} EachMessageTakesEffectOnce<B>(l: Ledger<B>, ops: seq<Op<B>>)
    requires l.receipts == map[]
    ensures var log, end := Committed(l, ops), RunOf(l, ops);
            end.business == Fold(l.business, log) && Explains(log, end.receipts)
    decreases |ops|
  {
    if ops != [] {
      var n := |ops| - 1;
      EachMessageTakesEffectOnce(l, ops[..n]);
      var before, log, prior := RunOf(l, ops[..n]), Committed(l, ops), Committed(l, ops[..n]);
      assert RunOf(l, ops) == Step(before, ops[n]);
      assert log == if ops[n].Local? || Executes(before, ops[n]) then prior + [ops[n]] else prior;
      hide Explains, Change, Effect, Committed, RunOf, Step, Apply;
      OneMoreCommitted(before, ops[n]);
      if log != prior {
        assert log[..|prior|] == prior;
        OneMoreExplained(before, prior, ops[n]);
      }
    }
  }

  /** A stored message is answered from its receipt, whatever the callback would do now; another
      content under its id is refused; neither touches anything. */
  lemma ReplayChangesNothing<B>(l: Ledger<B>, user: User, message: MessageId, hash: Digest, script: Script<B>)
    requires (user, message) in l.receipts
    ensures var (after, outcome) := Apply(l, user, true, message, hash, script);
            after == l && outcome == if l.receipts[(user, message)].hash == hash
                                     then Replied(l.receipts[(user, message)].response) else Conflict
  {
  }

  /** A receipt never changes once written, and a refused message leaves the business tables alone. */
  lemma ReceiptsAreFinal<B>(l: Ledger<B>, op: Op<B>, key: (User, MessageId))
    ensures key in l.receipts ==> key in Step(l, op).receipts && Step(l, op).receipts[key] == l.receipts[key]
    ensures key !in l.receipts && key in Step(l, op).receipts && !Step(l, op).receipts[key].response.ok
            && op.Relay? && IsHonest(op.script) ==>
            Step(l, op).business == l.business
  {
  }

  // ----------------------------------------------------- the repository object

  class Repository<B> {
    var business: B
    var receipts: map<(User, MessageId), Receipt>

    function View(): Ledger<B>
      reads this
    {
      Ledger(business, receipts)
    }

    constructor (initial: B)
      ensures View() == Ledger(initial, map[])
    {
      business, receipts := initial, map[];
    }

    /** `atomic_relay_request`: `work` is the open transaction, `savepoint` the state at
        SAVEPOINT relay_operation. */
    method AtomicRelayRequest(user: User, writable: bool, message: MessageId, hash: Digest, script: Script<B>)
      returns (outcome: Outcome)
      modifies this
      ensures (View(), outcome) == Apply(old(View()), user, writable, message, hash, script)
    {
      if !writable { return Failed; }
      if (user, message) in receipts {
        var previous := receipts[(user, message)];
        return if previous.hash != hash then Conflict else Replied(previous.response);
      }
      var savepoint := business;
      var work := savepoint;
      var i := 0;
      while i < |script.actions|
        invariant 0 <= i <= |script.actions|
        invariant work == Effect(script.actions[..i], savepoint)
      {
        assert script.actions[..i + 1][..i] == script.actions[..i];
        match script.actions[i] {
          case Write(effect) => work := effect(work);
          case Begin =>
          case Commit =>
          case Rollback => work := savepoint;
        }
        i := i + 1;
      }
      assert script.actions[..i] == script.actions;
      match script.verdict
      case Raised => return Failed;
      case Accepted(response) =>
        if |response.text| > MAX_RESPONSE_BYTES { return Failed; }
        business, receipts := work, receipts[(user, message) := Receipt(hash, response)];
        return Replied(response);
      case Refused(response) =>
        work := savepoint;
        if |response.text| > MAX_RESPONSE_BYTES { return Failed; }
        business, receipts := work, receipts[(user, message) := Receipt(hash, response)];
        return Replied(response);
    }
  }

  // -------------------------------------------------------- _bounded_snapshot

  /** A serialised record takes its size and a separating comma. */
  function Cost(size: nat): nat {
    size + 1
  }

  /** The positions of the records that fit, taken greedily from the newest on. */
  function Kept(sizes: seq<nat>, budget: int): seq<nat> {
    if sizes == [] then []
    else
      var n := |sizes| - 1;
      var before := Kept(sizes[..n], budget);
      if Cost(sizes[n]) > budget - Spent(sizes, before) then before else before + [n]
  }

  function Spent(sizes: seq<nat>, positions: seq<nat>): nat {
    if positions == [] then 0
    else
      var last := positions[|positions| - 1];
      Spent(sizes, positions[..|positions| - 1]) + if last < |sizes| then Cost(sizes[last]) else 0
  }

  lemma {:induction false} SpentPrefix(sizes: seq<nat>, n: nat, positions: seq<nat>)
    requires n <= |sizes| && forall i :: 0 <= i < |positions| ==> positions[i] < n
    ensures Spent(sizes[..n], positions) == Spent(sizes, positions)
    decreases |positions|
  {
    if positions != [] { SpentPrefix(sizes, n, positions[..|positions| - 1]); }
  }

  /** The records kept fit into the budget, in their own order. */
  lemma {:induction false} KeptFits(sizes: seq<nat>, budget: nat)
    ensures var kept := Kept(sizes, budget);
            && (forall i :: 0 <= i < |kept| ==> kept[i] < |sizes|)
            && (forall i, j :: 0 <= i < j < |kept| ==> kept[i] < kept[j])
            && Spent(sizes, kept) <= budget
    decreases |sizes|
  {
    if sizes != [] {
      var n := |sizes| - 1;
      var before := Kept(sizes[..n], budget);
      KeptFits(sizes[..n], budget);
      SpentPrefix(sizes, n, before);
      assert (before + [n])[..|before|] == before;
    }
  }

  /** A record that was left out did not fit behind those kept before it. */
  lemma {:induction false} LeftOutDidNotFit(sizes: seq<nat>, budget: nat, k: nat)
    requires k < |sizes| && k !in Kept(sizes, budget)
    ensures Kept(sizes[..k], budget) <= Kept(sizes, budget)
    ensures Cost(sizes[k]) > budget - Spent(sizes, Kept(sizes[..k], budget))
    decreases |sizes|
  {
    var n := |sizes| - 1;
    if k < n {
      assert sizes[..n][..k] == sizes[..k];
      assert k !in Kept(sizes[..n], budget);
      LeftOutDidNotFit(sizes[..n], budget, k);
      KeptFits(sizes[..k], budget);
      SpentPrefix(sizes, n, Kept(sizes[..k], budget));
    }
  }

  lemma NoneKept(sizes: seq<nat>, budget: nat)
    ensures Kept([], budget) == [] && Spent(sizes, []) == 0
  {
  }

  lemma KeptStep(sizes: seq<nat>, n: nat, budget: nat, kept: seq<nat>)
    requires n < |sizes| && kept == Kept(sizes[..n], budget) && forall i :: 0 <= i < |kept| ==> kept[i] < n
    ensures Kept(sizes[..n + 1], budget) == if Cost(sizes[n]) > budget - Spent(sizes, kept) then kept else kept + [n]
    ensures Spent(sizes, kept + [n]) == Spent(sizes, kept) + Cost(sizes[n])
  {
    assert sizes[..n + 1][..n] == sizes[..n];
    SpentPrefix(sizes, n + 1, kept);
    assert (kept + [n])[..|kept|] == kept;
  }

  /** One group of the snapshot: at most 100 records, as many as still fit. */
  method KeepRecords(sizes: seq<nat>, budget: nat) returns (kept: seq<nat>, remaining: nat, truncated: bool)
    ensures var shown := sizes[..Min(100, |sizes|)];
            && kept == Kept(shown, budget) && remaining == budget - Spent(shown, kept)
            && (truncated <==> |kept| < |sizes|)
  {
    hide Kept, Spent;
    var shown := sizes[..Min(100, |sizes|)];
    kept, remaining, truncated := [], budget, false;
    assert shown[..0] == [] && Kept([], budget) == [] && Spent(shown, []) == 0 by { NoneKept(shown, budget); }
    var i := 0;
    while i < |shown|
      invariant 0 <= i <= |shown| && |kept| <= i
      invariant kept == Kept(shown[..i], budget)
      invariant forall j :: 0 <= j < |kept| ==> kept[j] < i
      invariant remaining == budget - Spent(shown, kept)
      invariant truncated <==> |kept| < i
    {
      KeptStep(shown, i, budget, kept);
      if Cost(shown[i]) > remaining {
        truncated := true;
      } else {
        remaining := remaining - Cost(shown[i]);
        kept := kept + [i];
      }
      i := i + 1;
    }
    assert shown[..i] == shown;
    if |sizes| > 100 { truncated := true; }
  }
}
