/** The payout settlement protocol: a locking transaction, a gateway step outside any
    transaction, then a resolving transaction or a failure path of two separate
    writes. Any number of workers interleave at these points and may crash. */
module Settlement {
  import Pool = LiquidityPool
  import opened JsMath
  import IdempotencyKey

  // ---- Data ----

  /** The argument of one `processParametricPayout` call. */
  datatype Call = Call(
    userId: string, policyId: string, disruptionEventId: string,
    eventTimestamp: int, h3Cell: string, approvedPayout: real)

  datatype Claim = Claim(policyId: string, disruptionEventId: string)

  /** What the SHA-256 key identifies (IdempotencyKey.KeyIdentifiesClaimHour). */
  datatype Key = Key(claim: Claim, hour: int)

  /** The legacy unique constraint (user, cell, timestamp) on key rows. */
  datatype Context = Context(userId: string, h3Cell: string, eventTimestamp: int)

  datatype KeyState = PENDING | PROCESSING | SUCCESS | FAILED
  datatype KeyRow = KeyRow(context: Context, state: KeyState)
  datatype PayoutStatus = InProgress | Approved | Rejected
  datatype PayoutRow = PayoutRow(status: PayoutStatus, approvedPayout: real)
  datatype ClaimStatus = UnderReview | ClaimPaid

  /** The tables the protocol touches; `index` is the unique index over `Context`. */
  datatype Db = Db(
    owners: map<string, string>,
    keys: map<Key, KeyRow>,
    index: map<Context, Key>,
    payouts: map<Claim, PayoutRow>,
    claims: map<Claim, ClaimStatus>)

  function ClaimOf(call: Call): Claim {
    Claim(call.policyId, call.disruptionEventId)
  }

  function KeyOf(call: Call): Key {
    Key(ClaimOf(call), IdempotencyKey.HourIndex(call.eventTimestamp))
  }

  function ContextOf(call: Call): Context {
    Context(call.userId, call.h3Cell, call.eventTimestamp)
  }

  predicate SameClaim(a: Call, b: Call) {
    a.policyId == b.policyId && a.disruptionEventId == b.disruptionEventId
  }

  predicate SameContext(a: Call, b: Call) {
    a.userId == b.userId && a.h3Cell == b.h3Cell && a.eventTimestamp == b.eventTimestamp
  }

  /** One UTC hour: timestamps count seconds from an hour's start. */
  predicate SameHour(a: Call, b: Call) {
    a.eventTimestamp / 3600 == b.eventTimestamp / 3600
  }

  /** The amount sent to the gateway: one rupee if the approved amount rounds to less, else
      the nearest whole number of paise, halves up. */
  function PaiseOf(approvedPayout: real): (p: int)
    ensures approvedPayout < 0.995 ==> p == 100
    ensures approvedPayout >= 0.995 ==> p as real - 0.5 <= 100.0 * approvedPayout < p as real + 0.5
  {
    MaxInt(100, Round(approvedPayout * 100.0))
  }

  /** `taken` rupees are what an approved amount is worth to the gateway. */
  predicate PaysFor(taken: real, approved: real) {
    var paise := 100.0 * taken;
    if approved < 0.995 then paise == 100.0
    else paise == paise.Floor as real && paise - 0.5 <= 100.0 * approved < paise + 0.5
  }

  function Paise(call: Call): int {
    PaiseOf(call.approvedPayout)
  }

  function Rupees(call: Call): real {
    Paise(call) as real / 100.0
  }

  predicate Succeeded(db: Db, k: Key) {
    k in db.keys && db.keys[k].state == SUCCESS
  }

  predicate IsApproved(db: Db, c: Claim) {
    c in db.payouts && db.payouts[c].status == Approved
  }

  predicate IsPaid(db: Db, c: Claim) {
    c in db.claims && db.claims[c] == ClaimPaid
  }

  // ---- The transactions ----

  datatype Refusal = InvalidPolicy | InFlight | UniqueViolation
  datatype PreGatewayResult = Refused(reason: Refusal) | Cached | Locked(db: Db)

  function FindKeyRow(db: Db, call: Call): (r: seq<KeyRow>)
    ensures |r| <= 1
  {
    if KeyOf(call) in db.keys then [db.keys[KeyOf(call)]]
    else if ContextOf(call) in db.index && db.index[ContextOf(call)] in db.keys
      then [db.keys[db.index[ContextOf(call)]]]
    else []
  }

  /** Phase 1. A cached answer speaks about the caller's own key only if that key has a
      row; otherwise another claim with the same user, cell and second is answered for. */
  function PreGateway(db: Db, call: Call): (r: PreGatewayResult)
    ensures Succeeded(db, KeyOf(call)) && !(r.Refused? && r.reason.InvalidPolicy?) ==> r.Cached?
    ensures r.Cached? ==> (Succeeded(db, KeyOf(call)) <==> KeyOf(call) in db.keys)
    ensures r.Locked? ==>
              && !Succeeded(db, KeyOf(call))
              && KeyOf(call) in r.db.keys && r.db.keys[KeyOf(call)].state == PROCESSING
              && (forall k | k in db.keys && k != KeyOf(call) :: k in r.db.keys && r.db.keys[k] == db.keys[k])
  {
    var k := KeyOf(call);
    var ctx := ContextOf(call);
    var c := ClaimOf(call);
    if call.policyId !in db.owners || db.owners[call.policyId] != call.userId then Refused(InvalidPolicy)
    else
      var found := FindKeyRow(db, call);
      if found != [] && found[0].state == SUCCESS then Cached
      else if found != [] && found[0].state == PROCESSING then Refused(InFlight)
      else if k !in db.keys && ctx in db.index then Refused(UniqueViolation)
      else
        var row := if k in db.keys then db.keys[k].(state := PROCESSING) else KeyRow(ctx, PROCESSING);
        var payout := if c in db.payouts then db.payouts[c].(status := InProgress)
                      else PayoutRow(InProgress, call.approvedPayout);
        Locked(Db(
          db.owners,
          db.keys[k := row],
          if k in db.keys then db.index else db.index[ctx := k],
          db.payouts[c := payout],
          db.claims[c := UnderReview]))
  }

  predicate OwnsPolicy(owners: map<string, string>, call: Call) {
    call.policyId in owners && owners[call.policyId] == call.userId
  }

  /** The state of the key row that phase 1 goes by: the call's own, or failing that the one
      its user, cell and second were used for. */
  predicate FoundIn(db: Db, call: Call, state: KeyState) {
    var own, ctx := KeyOf(call), Context(call.userId, call.h3Cell, call.eventTimestamp);
    if own in db.keys then db.keys[own].state == state
    else ctx in db.index && db.index[ctx] in db.keys && db.keys[db.index[ctx]].state == state
  }

  /** Exactly when phase 1 gives which answer. */
  lemma PhaseOneDecides(db: Db, call: Call)
    ensures var r := PreGateway(db, call); var owner := OwnsPolicy(db.owners, call);
            var taken := Context(call.userId, call.h3Cell, call.eventTimestamp) in db.index && KeyOf(call) !in db.keys;
            && (r == Refused(InvalidPolicy) <==> !owner)
            && (r == Cached <==> owner && FoundIn(db, call, SUCCESS))
            && (r == Refused(InFlight) <==> owner && FoundIn(db, call, PROCESSING))
            && (r == Refused(UniqueViolation) <==>
                  owner && taken && !FoundIn(db, call, SUCCESS) && !FoundIn(db, call, PROCESSING))
  {}

  /** What phase 1 writes when it locks: the key row in PROCESSING with its first context, the
      payout row under way with its first amount, the claim under review, and nothing else. */
  lemma LockWrites(db: Db, call: Call)
    requires PreGateway(db, call).Locked?
    ensures var t := PreGateway(db, call).db; var k := KeyOf(call); var c := ClaimOf(call);
            var ctx := Context(call.userId, call.h3Cell, call.eventTimestamp);
            && t.owners == db.owners
            && t.keys == db.keys[k := KeyRow(if k in db.keys then db.keys[k].context else ctx, PROCESSING)]
            && t.index == (if k in db.keys then db.index else db.index[ctx := k])
            && t.payouts == db.payouts[c := PayoutRow(
                 InProgress, if c in db.payouts then db.payouts[c].approvedPayout else call.approvedPayout)]
            && t.claims == db.claims[c := UnderReview]
  {}

  function SetKeyState(db: Db, k: Key, state: KeyState): Db {
    if k in db.keys then db.(keys := db.keys[k := db.keys[k].(state := state)]) else db
  }

  function SetPayoutStatus(db: Db, c: Claim, status: PayoutStatus): Db {
    if c in db.payouts then db.(payouts := db.payouts[c := db.payouts[c].(status := status)]) else db
  }

  function SetClaimStatus(db: Db, c: Claim, status: ClaimStatus): Db {
    if c in db.claims then db.(claims := db.claims[c := status]) else db
  }

  /** Phase 2, one transaction over payout, claim case and key. */
  function Resolved(db: Db, call: Call): Db {
    SetKeyState(
      SetClaimStatus(SetPayoutStatus(db, ClaimOf(call), Approved), ClaimOf(call), ClaimPaid),
      KeyOf(call), SUCCESS)
  }

  // ---- The protocol as a state machine ----

  /** Where a call stands. `Settled` is the window between the gateway's success and
      phase 2; `Failing` and `Rejecting` are the two writes of the failure path. */
  datatype Stage = AtGateway | Settled | Failing | Rejecting
  datatype Worker = Worker(call: Call, stage: Stage, crashed: bool)

  /** `ledger`, `aborted`, `outflow`, `injected` and `overwritten` record history only:
      the keys disbursed in order, phase-2 failures after a disbursement, the paise
      paid, the rupees injected, and claims whose APPROVED row was set to REJECTED. */
  datatype State = State(
    db: Db, funds: Pool.Funds, workers: map<nat, Worker>,
    ledger: seq<Key>, aborted: multiset<Key>, outflow: int, injected: real,
    overwritten: set<Claim>)

  datatype Step =
    | Start(w: nat, call: Call)
    | Gateway(w: nat, up: bool)
    | Resolve(w: nat)
    | ResolveFails(w: nat)
    | MarkKeyFailed(w: nat, written: bool)
    | MarkRejected(w: nat, written: bool)
    | Crash(w: nat)
    | Inject(amount: real)

  predicate Alive(s: State, w: nat, stage: Stage) {
    w in s.workers && !s.workers[w].crashed && s.workers[w].stage == stage
  }

  function MoveTo(s: State, w: nat, stage: Stage): State
    requires w in s.workers
  {
    s.(workers := s.workers[w := s.workers[w].(stage := stage)])
  }

  function GatewayStep(s: State, w: nat, up: bool): State
    requires w in s.workers
  {
    var call := s.workers[w].call;
    var outcome := Pool.Withdraw(s.funds, Rupees(call));
    if up && outcome.Withdrawn?
    then MoveTo(s, w, Settled).(
           funds := outcome.funds,
           ledger := s.ledger + [KeyOf(call)],
           outflow := s.outflow + Paise(call))
    else MoveTo(s, w, Failing)
  }

  function RejectStep(s: State, w: nat, written: bool): State
    requires w in s.workers
  {
    var c := ClaimOf(s.workers[w].call);
    var t := s.(workers := s.workers - {w});
    if !written then t
    else t.(db := SetPayoutStatus(s.db, c, Rejected),
            overwritten := if IsApproved(s.db, c) then s.overwritten + {c} else s.overwritten)
  }

  /** One step; a step that is not possible in `s` changes nothing. */
  function Next(s: State, step: Step): State {
    match step
    case Start(w, call) =>
      if w in s.workers then s
      else
        var pre := PreGateway(s.db, call);
        if pre.Locked? then s.(db := pre.db, workers := s.workers[w := Worker(call, AtGateway, false)]) else s
    case Gateway(w, up) =>
      if Alive(s, w, AtGateway) then GatewayStep(s, w, up) else s
    case Resolve(w) =>
      if Alive(s, w, Settled)
      then s.(db := Resolved(s.db, s.workers[w].call), workers := s.workers - {w}) else s
    case ResolveFails(w) =>
      if Alive(s, w, Settled)
      then MoveTo(s, w, Failing).(aborted := s.aborted + multiset{KeyOf(s.workers[w].call)}) else s
    case MarkKeyFailed(w, written) =>
      if Alive(s, w, Failing)
      then MoveTo(s, w, Rejecting).(
             db := if written then SetKeyState(s.db, KeyOf(s.workers[w].call), FAILED) else s.db)
      else s
    case MarkRejected(w, written) =>
      if Alive(s, w, Rejecting) then RejectStep(s, w, written) else s
    case Crash(w) =>
      if w in s.workers then s.(workers := s.workers[w := s.workers[w].(crashed := true)]) else s
    case Inject(amount) =>
      if amount >= 0.0 then s.(funds := Pool.Inject(s.funds, amount), injected := s.injected + amount) else s
  }

  function After(s: State, steps: seq<Step>): State {
    if steps == [] then s else Next(After(s, steps[..|steps| - 1]), steps[|steps| - 1])
  }

  ghost predicate Initial(s: State) {
    && s.db.keys == map[] && s.db.index == map[] && s.db.payouts == map[] && s.db.claims == map[]
    && s.workers == map[] && s.ledger == [] && s.aborted == multiset{}
    && s.outflow == 0 && s.injected == 0.0 && s.overwritten == {} && s.funds.NonNegative()
  }

  lemma AfterSnoc(s: State, steps: seq<Step>, step: Step)
    ensures After(s, steps + [step]) == Next(After(s, steps), step)
  {
    assert (steps + [step])[..|steps + [step]| - 1] == steps;
  }

  // ---- Safety of every interleaving ----

  /** A worker holds its key from phase 1 until the key is resolved or marked FAILED. */
  predicate Holds(worker: Worker, k: Key) {
    KeyOf(worker.call) == k && worker.stage != Rejecting
  }

  ghost predicate SettledHolder(s: State, k: Key) {
    exists w | w in s.workers :: s.workers[w].stage == Settled && KeyOf(s.workers[w].call) == k
  }

  /** The key's last disbursement has not been undone by a failed phase 2. */
  ghost predicate Charged(s: State, k: Key) {
    Succeeded(s.db, k) || SettledHolder(s, k)
  }

  ghost predicate HoldersLock(s: State) {
    forall w | w in s.workers && s.workers[w].stage != Rejecting ::
      var k := KeyOf(s.workers[w].call);
      k in s.db.keys && s.db.keys[k].state == PROCESSING
  }

  ghost predicate OneHolder(s: State) {
    forall v, w | v in s.workers && w in s.workers
                  && Holds(s.workers[v], KeyOf(s.workers[w].call)) && s.workers[w].stage != Rejecting ::
      v == w
  }

  ghost predicate LedgerAgrees(s: State) {
    forall k :: multiset(s.ledger)[k] == s.aborted[k] + (if Charged(s, k) then 1 else 0)
  }

  ghost predicate FundsBalance(s: State, initial: Pool.Funds) {
    && s.funds.NonNegative()
    && s.funds.Total() == initial.Total() + s.injected - s.outflow as real / 100.0
  }

  ghost predicate Safe(s: State) {
    HoldersLock(s) && OneHolder(s) && LedgerAgrees(s)
  }

  lemma StartKeepsLocks(s: State, w: nat, call: Call)
    requires HoldersLock(s) && OneHolder(s)
    ensures HoldersLock(Next(s, Start(w, call))) && OneHolder(Next(s, Start(w, call)))
  {}

  lemma StartChargesNobody(s: State, w: nat, call: Call, k: Key)
    ensures Charged(Next(s, Start(w, call)), k) == Charged(s, k)
  {
    var t := Next(s, Start(w, call));
    if t != s && SettledHolder(s, k) {
      var v :| v in s.workers && s.workers[v].stage == Settled && KeyOf(s.workers[v].call) == k;
      assert v in t.workers && t.workers[v] == s.workers[v];
    }
  }

  lemma StartKeepsSafe(s: State, w: nat, call: Call)
    requires Safe(s)
    ensures Safe(Next(s, Start(w, call)))
  {
    StartKeepsLocks(s, w, call);
    var t := Next(s, Start(w, call));
    forall k ensures multiset(t.ledger)[k] == t.aborted[k] + (if Charged(t, k) then 1 else 0) {
      StartChargesNobody(s, w, call, k);
    }
  }

  lemma GatewayKeepsLocks(s: State, w: nat, up: bool)
    requires HoldersLock(s) && OneHolder(s)
    ensures HoldersLock(Next(s, Gateway(w, up))) && OneHolder(Next(s, Gateway(w, up)))
  {}

  lemma GatewayCharges(s: State, w: nat, up: bool, k: Key)
    requires Alive(s, w, AtGateway)
    ensures var t := Next(s, Gateway(w, up));
            Charged(t, k) == (Charged(s, k) || (t.workers[w].stage == Settled && k == KeyOf(s.workers[w].call)))
  {
    var t := Next(s, Gateway(w, up));
    if SettledHolder(s, k) {
      var v :| v in s.workers && s.workers[v].stage == Settled && KeyOf(s.workers[v].call) == k;
      assert v in t.workers && t.workers[v] == s.workers[v];
    }
  }

  lemma GatewayKeepsSafe(s: State, w: nat, up: bool)
    requires Safe(s)
    ensures Safe(Next(s, Gateway(w, up)))
  {
    GatewayKeepsLocks(s, w, up);
    var t := Next(s, Gateway(w, up));
    if Alive(s, w, AtGateway) {
      var own := KeyOf(s.workers[w].call);
      var paid := t.workers[w].stage == Settled;
      assert !Charged(s, own);
      assert multiset(t.ledger) == multiset(s.ledger) + (if paid then multiset{own} else multiset{});
      forall k ensures multiset(t.ledger)[k] == t.aborted[k] + (if Charged(t, k) then 1 else 0) {
        GatewayCharges(s, w, up, k);
      }
    }
  }

  lemma ResolveKeepsLocks(s: State, w: nat, commits: bool)
    requires HoldersLock(s) && OneHolder(s)
    ensures var t := Next(s, if commits then Resolve(w) else ResolveFails(w)); HoldersLock(t) && OneHolder(t)
  {
    if Alive(s, w, Settled) {
      assert Holds(s.workers[w], KeyOf(s.workers[w].call));
    }
  }

  /** Phase 2 keeps the key's charge if it commits and takes it back if it fails. */
  lemma ResolveCharges(s: State, w: nat, commits: bool, k: Key)
    requires HoldersLock(s) && OneHolder(s) && Alive(s, w, Settled)
    ensures var t := Next(s, if commits then Resolve(w) else ResolveFails(w));
            Charged(t, k) == (if k == KeyOf(s.workers[w].call) then commits else Charged(s, k))
  {
    var t := Next(s, if commits then Resolve(w) else ResolveFails(w));
    if k != KeyOf(s.workers[w].call) && SettledHolder(s, k) {
      var v :| v in s.workers && s.workers[v].stage == Settled && KeyOf(s.workers[v].call) == k;
      assert v in t.workers && t.workers[v] == s.workers[v];
    }
  }

  lemma ResolveKeepsSafe(s: State, w: nat, commits: bool)
    requires Safe(s)
    ensures Safe(Next(s, if commits then Resolve(w) else ResolveFails(w)))
  {
    ResolveKeepsLocks(s, w, commits);
    var t := Next(s, if commits then Resolve(w) else ResolveFails(w));
    if Alive(s, w, Settled) {
      assert SettledHolder(s, KeyOf(s.workers[w].call));
      forall k ensures multiset(t.ledger)[k] == t.aborted[k] + (if Charged(t, k) then 1 else 0) {
        ResolveCharges(s, w, commits, k);
      }
    }
  }

  lemma KeyFailureKeepsSafe(s: State, w: nat, written: bool)
    requires Safe(s)
    ensures Safe(Next(s, MarkKeyFailed(w, written)))
  {
    var t := Next(s, MarkKeyFailed(w, written));
    if t != s {
      assert Holds(s.workers[w], KeyOf(s.workers[w].call));
      forall k ensures Charged(t, k) == Charged(s, k) {
        if SettledHolder(s, k) {
          var v :| v in s.workers && s.workers[v].stage == Settled && KeyOf(s.workers[v].call) == k;
          assert v in t.workers && t.workers[v] == s.workers[v];
        }
      }
    }
  }

  lemma RejectionKeepsSafe(s: State, w: nat, written: bool)
    requires Safe(s)
    ensures Safe(Next(s, MarkRejected(w, written)))
  {
    var t := Next(s, MarkRejected(w, written));
    if t != s {
      assert t.db.keys == s.db.keys;
      forall k ensures Charged(t, k) == Charged(s, k) {
        if SettledHolder(s, k) {
          var v :| v in s.workers && s.workers[v].stage == Settled && KeyOf(s.workers[v].call) == k;
          assert v in t.workers && t.workers[v] == s.workers[v];
        }
      }
    }
  }

  lemma CrashKeepsSafe(s: State, w: nat)
    requires Safe(s)
    ensures Safe(Next(s, Crash(w)))
  {
    var t := Next(s, Crash(w));
    forall k ensures Charged(t, k) == Charged(s, k) {
      if SettledHolder(s, k) {
        var v :| v in s.workers && s.workers[v].stage == Settled && KeyOf(s.workers[v].call) == k;
        assert v in t.workers && t.workers[v].stage == Settled && KeyOf(t.workers[v].call) == k;
      }
    }
  }

  lemma InjectKeepsSafe(s: State, amount: real)
    requires Safe(s)
    ensures Safe(Next(s, Inject(amount)))
  {
    var t := Next(s, Inject(amount));
    forall k ensures Charged(t, k) == Charged(s, k) {
      assert t.workers == s.workers;
    }
  }

  lemma NextKeepsSafe(s: State, step: Step)
    requires Safe(s)
    ensures Safe(Next(s, step))
  {
    match step
    case Start(w, call) => StartKeepsSafe(s, w, call);
    case Gateway(w, up) => GatewayKeepsSafe(s, w, up);
    case Resolve(w) => ResolveKeepsSafe(s, w, true);
    case ResolveFails(w) => ResolveKeepsSafe(s, w, false);
    case MarkKeyFailed(w, written) => KeyFailureKeepsSafe(s, w, written);
    case MarkRejected(w, written) => RejectionKeepsSafe(s, w, written);
    case Crash(w) => CrashKeepsSafe(s, w);
    case Inject(amount) => InjectKeepsSafe(s, amount);
  }

  /** In every interleaving of any calls, gateway failures, failed writes and crashes:
      at most one worker holds a key; the key then reads PROCESSING; and a key was
      disbursed once for each phase 2 that failed after a disbursement, plus once more
      if it is SUCCESS or waiting for phase 2. */
  lemma {:induction false} EveryInterleavingIsSafe(init: State, steps: seq<Step>)
    requires Initial(init)
    ensures Safe(After(init, steps))
  {
    if steps == [] {
      forall k ensures !Charged(init, k) {}
    } else {
      EveryInterleavingIsSafe(init, steps[..|steps| - 1]);
      NextKeepsSafe(After(init, steps[..|steps| - 1]), steps[|steps| - 1]);
    }
  }

  predicate NoFailedPhaseTwo(steps: seq<Step>) {
    forall i | 0 <= i < |steps| :: !steps[i].ResolveFails?
  }

  lemma {:induction false} NothingAborted(init: State, steps: seq<Step>)
    requires Initial(init) && NoFailedPhaseTwo(steps)
    ensures After(init, steps).aborted == multiset{}
  {
    if steps != [] {
      NothingAborted(init, steps[..|steps| - 1]);
    }
  }

  /** Exactly-once disbursement per key, when phase 2 commits for every live worker. */
  lemma {:induction false} DisbursedAtMostOnce(init: State, steps: seq<Step>, k: Key)
    requires Initial(init) && NoFailedPhaseTwo(steps)
    ensures var s := After(init, steps);
            && multiset(s.ledger)[k] <= 1
            && (Succeeded(s.db, k) ==> multiset(s.ledger)[k] == 1)
            && (multiset(s.ledger)[k] == 1 ==> Succeeded(s.db, k) || SettledHolder(s, k))
  {
    EveryInterleavingIsSafe(init, steps);
    NothingAborted(init, steps);
  }

  /** A call that finds its way free: it reaches `Settled` and has been paid. */
  lemma PaidUpTo(s: State, w: nat, call: Call)
    requires w !in s.workers && PreGateway(s.db, call).Locked? && Rupees(call) <= s.funds.pool
    ensures var t := Next(Next(s, Start(w, call)), Gateway(w, true));
            && t.workers == s.workers[w := Worker(call, Settled, false)]
            && t.db == PreGateway(s.db, call).db
            && t.ledger == s.ledger + [KeyOf(call)]
            && t.funds.pool == s.funds.pool - Rupees(call)
            && t.overwritten == s.overwritten
  {
    var t := Next(Next(s, Start(w, call)), Gateway(w, true));
    assert t.workers == s.workers[w := Worker(call, Settled, false)];
  }

  /** From `Settled`, a failed phase 2 and both failure writes leave the key FAILED. */
  lemma UndoneAfterPaid(s: State, w: nat, call: Call)
    requires w in s.workers && s.workers[w] == Worker(call, Settled, false)
    requires KeyOf(call) in s.db.keys
    ensures var t := Next(Next(Next(s, ResolveFails(w)), MarkKeyFailed(w, true)), MarkRejected(w, true));
            && t.workers == s.workers - {w}
            && t.db.owners == s.db.owners && t.ledger == s.ledger && t.funds == s.funds
            && KeyOf(call) in t.db.keys && t.db.keys[KeyOf(call)].state == FAILED
  {
    var t1 := Next(s, ResolveFails(w));
    var t2 := Next(t1, MarkKeyFailed(w, true));
    var t3 := Next(t2, MarkRejected(w, true));
    assert t1.workers == s.workers[w := Worker(call, Failing, false)];
    assert t2.workers == s.workers[w := Worker(call, Rejecting, false)];
    assert t3.workers == s.workers - {w};
  }

  /** A failed phase 2 whose key is then marked FAILED pays a key twice: this run does. */
  lemma FailedPhaseTwoPaysAgain(init: State, call: Call) returns (steps: seq<Step>)
    requires Initial(init)
    requires call.policyId in init.db.owners && init.db.owners[call.policyId] == call.userId
    requires 2.0 * Rupees(call) <= init.funds.pool
    ensures multiset(After(init, steps).ledger)[KeyOf(call)] == 2
  {
    PaidUpTo(init, 0, call);
    var s2 := Next(Next(init, Start(0, call)), Gateway(0, true));
    UndoneAfterPaid(s2, 0, call);
    var s5 := Next(Next(Next(s2, ResolveFails(0)), MarkKeyFailed(0, true)), MarkRejected(0, true));
    PaidUpTo(s5, 0, call);
    var s7 := Next(Next(s5, Start(0, call)), Gateway(0, true));
    assert s7.ledger == [KeyOf(call), KeyOf(call)];
    steps := [Start(0, call), Gateway(0, true), ResolveFails(0), MarkKeyFailed(0, true), MarkRejected(0, true),
              Start(0, call), Gateway(0, true)];
    AfterFive(init, steps[..5]);
    AfterTwo(init, steps);
    assert steps[..5] == [steps[0], steps[1], steps[2], steps[3], steps[4]];
  }

  lemma AfterTwo(s: State, steps: seq<Step>)
    requires |steps| >= 2
    ensures After(s, steps) == Next(Next(After(s, steps[..|steps| - 2]), steps[|steps| - 2]), steps[|steps| - 1])
  {
    var n := |steps|;
    assert steps[..n - 1][..n - 2] == steps[..n - 2];
  }

  lemma AfterFive(s: State, steps: seq<Step>)
    requires |steps| == 5
    ensures After(s, steps)
            == Next(Next(Next(Next(Next(s, steps[0]), steps[1]), steps[2]), steps[3]), steps[4])
  {
    AfterPrefix(s, steps, 0);
    AfterPrefix(s, steps, 1);
    AfterPrefix(s, steps, 2);
    AfterPrefix(s, steps, 3);
    AfterPrefix(s, steps, 4);
    assert steps[..5] == steps;
  }

  lemma AfterPrefix(s: State, steps: seq<Step>, i: nat)
    requires i < |steps|
    ensures After(s, steps[..i + 1]) == Next(After(s, steps[..i]), steps[i])
  {
    assert steps[..i + 1][..i] == steps[..i];
  }

  lemma NextKeepsSuccess(s: State, step: Step, k: Key)
    requires Safe(s) && Succeeded(s.db, k)
    ensures Succeeded(Next(s, step).db, k)
  {
    if step.Resolve? || step.ResolveFails? || step.MarkKeyFailed? {
      if step.w in s.workers && s.workers[step.w].stage != Rejecting {
        assert KeyOf(s.workers[step.w].call) != k;
      }
    }
  }

  /** SUCCESS is final. */
  lemma {:induction false} SuccessIsFinal(s: State, steps: seq<Step>, k: Key)
    requires Safe(s) && Succeeded(s.db, k)
    ensures Safe(After(s, steps)) && Succeeded(After(s, steps).db, k)
  {
    if steps != [] {
      SuccessIsFinal(s, steps[..|steps| - 1], k);
      NextKeepsSafe(After(s, steps[..|steps| - 1]), steps[|steps| - 1]);
      NextKeepsSuccess(After(s, steps[..|steps| - 1]), steps[|steps| - 1], k);
    }
  }

  lemma GatewayBalances(s: State, w: nat, up: bool, initial: Pool.Funds)
    requires FundsBalance(s, initial)
    ensures FundsBalance(Next(s, Gateway(w, up)), initial)
  {}

  lemma InjectBalances(s: State, amount: real, initial: Pool.Funds)
    requires FundsBalance(s, initial)
    ensures FundsBalance(Next(s, Inject(amount)), initial)
  {}

  lemma OthersMoveNoMoney(s: State, step: Step)
    requires !step.Gateway? && !step.Inject?
    ensures var t := Next(s, step); t.funds == s.funds && t.injected == s.injected && t.outflow == s.outflow
  {}

  /** Money: the funds never go negative and account for every paisa paid. */
  lemma {:induction false} MoneyIsConserved(init: State, steps: seq<Step>)
    requires Initial(init)
    ensures FundsBalance(After(init, steps), init.funds)
  {
    if steps != [] {
      var r := After(init, steps[..|steps| - 1]);
      MoneyIsConserved(init, steps[..|steps| - 1]);
      match steps[|steps| - 1]
      case Gateway(w, up) => GatewayBalances(r, w, up, init.funds);
      case Inject(amount) => InjectBalances(r, amount, init.funds);
      case step => OthersMoveNoMoney(r, step);
    }
  }

  lemma OwnersAreFixed(s: State, step: Step)
    ensures Next(s, step).db.owners == s.db.owners
  {
    match step
    case Resolve(w) =>
      if Alive(s, w, Settled) {
        var c := ClaimOf(s.workers[w].call);
        var paid := SetClaimStatus(SetPayoutStatus(s.db, c, Approved), c, ClaimPaid);
        assert paid.owners == s.db.owners;
      }
    case _ =>
  }

  /** Nobody is paid on a policy of somebody else: every worker at work calls for the owner of
      its policy, and every key paid is of a policy that has an owner. */
  lemma {:induction false} OnlyOwnersArePaid(init: State, steps: seq<Step>)
    requires Initial(init)
    ensures var s := After(init, steps);
            && s.db.owners == init.db.owners
            && (forall w | w in s.workers :: OwnsPolicy(init.db.owners, s.workers[w].call))
            && (forall k <- s.ledger :: k.claim.policyId in init.db.owners)
  {
    if steps != [] {
      var r, step := After(init, steps[..|steps| - 1]), steps[|steps| - 1];
      OnlyOwnersArePaid(init, steps[..|steps| - 1]);
      OwnersAreFixed(r, step);
      GatewayPaysOwnKey(r, step);
    }
  }

  /** Whenever a key joins the ledger, pool and reserve together fall by the rupees its
      worker's approved amount is worth. No other step but an injection moves money. */
  lemma EveryPaymentIsExact(s: State, step: Step)
    ensures var t := Next(s, step);
            if t.ledger != s.ledger then
              && step.Gateway? && step.w in s.workers
              && PaysFor(s.funds.pool + s.funds.reserve - (t.funds.pool + t.funds.reserve),
                         s.workers[step.w].call.approvedPayout)
              && t.funds.operating == s.funds.operating
            else
              step.Inject? || t.funds == s.funds
  {
    if step.Gateway? && Alive(s, step.w, AtGateway) {
      var call := s.workers[step.w].call;
      Pool.WithdrawalTakes(s.funds, Rupees(call));
      RupeesPayFor(call);
    }
  }

  lemma RupeesPayFor(call: Call)
    ensures PaysFor(Rupees(call), call.approvedPayout)
  {
    assert 100.0 * Rupees(call) == Paise(call) as real;
  }

  /** Only a live worker's gateway step pays, and it pays that worker's key. */
  lemma GatewayPaysOwnKey(s: State, step: Step)
    ensures Next(s, step).ledger == s.ledger
            || (step.Gateway? && Alive(s, step.w, AtGateway)
                && Next(s, step).ledger == s.ledger + [KeyOf(s.workers[step.w].call)])
  {}

  /** A gateway that does not answer sends its worker down the failure path. */
  lemma GatewayRefusal(s: State, w: nat)
    requires Alive(s, w, AtGateway)
    ensures Next(s, Gateway(w, false)) == MoveTo(s, w, Failing)
  {}
}
