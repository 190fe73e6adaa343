/** The two services that drive settlements: one call from start to end, the payout
    front door with its pre-check, and the retry cron. Each is proved against the
    protocol's step functions or the queue's batch function. */
module PayoutServices {
  import opened Settlement
  import opened SettlementAnswers
  import opened RetryQueue
  import opened Sequences
  import Pool = LiquidityPool

  /** What the outside world does to one call: whether the gateway answers, whether the
      resolution commits, and whether each failure write reaches the database. */
  datatype World = World(gatewayUp: bool, commits: bool, keyWritten: bool, payoutWritten: bool)

  datatype Answer = Settled | CachedSuccess | Failure

  function Begin(db: Db, funds: Pool.Funds): State {
    State(db, funds, map[], [], multiset{}, 0, 0.0, {})
  }

  /** A lone call is this run of one worker; steps that do not apply change nothing. */
  function LoneCall(call: Call, world: World): seq<Step> {
    [Start(0, call), Gateway(0, world.gatewayUp),
     if world.commits then Resolve(0) else ResolveFails(0),
     MarkKeyFailed(0, world.keyWritten), MarkRejected(0, world.payoutWritten)]
  }

  /** Tables and funds after a lone call. */
  function LoneEnd(db: Db, funds: Pool.Funds, call: Call, world: World): (Db, Pool.Funds) {
    var t := After(Begin(db, funds), LoneCall(call, world));
    (t.db, t.funds)
  }

  /** What a lone call answers: settled exactly when it locks, the pool pays and phase 2
      commits. */
  function LoneAnswer(db: Db, funds: Pool.Funds, call: Call, world: World): Answer {
    match PreGateway(db, call)
    case Cached => CachedSuccess
    case Refused(_) => Failure
    case Locked(_) =>
      if world.gatewayUp && Pool.Withdraw(funds, Rupees(call)).Withdrawn? && world.commits
      then Answer.Settled else Failure
  }

  class PaymentsService {
    var owners: map<string, string>
    var keys: map<Key, KeyRow>
    var index: map<Context, Key>
    var payouts: map<Claim, PayoutRow>
    var claims: map<Claim, ClaimStatus>
    const liquidityPool: Pool.LiquidityPoolService

    function Rows(): Db
      reads this
    {
      Db(owners, keys, index, payouts, claims)
    }

    constructor (owners: map<string, string>, pool: Pool.LiquidityPoolService)
      ensures Rows() == Db(owners, map[], map[], map[], map[]) && liquidityPool == pool
    {
      this.owners := owners;
      keys, index, payouts, claims := map[], map[], map[], map[];
      liquidityPool := pool;
    }

    /** Phase 1: gate, idempotency lookup, then the three upserts. */
    method PreGatewayTransaction(call: Call) returns (locked: bool, cached: bool)
      modifies this
      ensures locked == PreGateway(old(Rows()), call).Locked? && cached == PreGateway(old(Rows()), call).Cached?
      ensures Rows() == if locked then PreGateway(old(Rows()), call).db else old(Rows())
      ensures locked ==> ClaimOf(call) in payouts && ClaimOf(call) in claims && KeyOf(call) in keys
    {
      var k, ctx, c := KeyOf(call), ContextOf(call), ClaimOf(call);
      if call.policyId !in owners || owners[call.policyId] != call.userId {
        return false, false;
      }
      var found := FindKeyRow(Rows(), call);
      if found != [] {
        if found[0].state == SUCCESS {
          return false, true;
        }
        if found[0].state == PROCESSING {
          return false, false;
        }
      }
      if k in keys {
        keys := keys[k := keys[k].(state := PROCESSING)];
      } else if ctx in index {
        return false, false;
      } else {
        keys := keys[k := KeyRow(ctx, PROCESSING)];
        index := index[ctx := k];
      }
      payouts := payouts[c := if c in payouts then payouts[c].(status := InProgress)
                              else PayoutRow(InProgress, call.approvedPayout)];
      claims := claims[c := UnderReview];
      return true, false;
    }

    /** Phase 2: payout APPROVED, claim PAID and key SUCCESS together. */
    method ResolutionTransaction(call: Call)
      requires ClaimOf(call) in payouts && ClaimOf(call) in claims && KeyOf(call) in keys
      modifies this
      ensures Rows() == Resolved(old(Rows()), call)
    {
      var k, c := KeyOf(call), ClaimOf(call);
      payouts := payouts[c := payouts[c].(status := Approved)];
      claims := claims[c := ClaimPaid];
      keys := keys[k := keys[k].(state := SUCCESS)];
    }

    /** The failure path: two separate writes, each swallowing its own error. */
    method RecordFailure(call: Call, world: World)
      requires ClaimOf(call) in payouts && KeyOf(call) in keys
      modifies this
      ensures Rows() ==
              var failed := if world.keyWritten then SetKeyState(old(Rows()), KeyOf(call), FAILED) else old(Rows());
              if world.payoutWritten then SetPayoutStatus(failed, ClaimOf(call), Rejected) else failed
    {
      var k, c := KeyOf(call), ClaimOf(call);
      if world.keyWritten {
        keys := keys[k := keys[k].(state := FAILED)];
      }
      if world.payoutWritten {
        payouts := payouts[c := payouts[c].(status := Rejected)];
      }
    }

    /** The gateway step and what follows it: phase 2, or the failure path. */
    method SettleLocked(call: Call, world: World) returns (answer: Answer)
      requires ClaimOf(call) in payouts && ClaimOf(call) in claims && KeyOf(call) in keys
      modifies this, liquidityPool
      ensures var funds := old(liquidityPool.Balances());
              var paid := world.gatewayUp && Pool.Withdraw(funds, Rupees(call)).Withdrawn?;
              && answer == (if paid && world.commits then Answer.Settled else Failure)
              && Rows() == (if paid && world.commits then Resolved(old(Rows()), call)
                            else LoneFailed(old(Rows()), call, world))
              && liquidityPool.Balances() == (if paid then Pool.Withdraw(funds, Rupees(call)).funds else funds)
    {
      var settled := false;
      if world.gatewayUp {
        var withdrawal := liquidityPool.WithdrawPayout(Rupees(call));
        settled := withdrawal.Withdrawn?;
      }
      if settled && world.commits {
        ResolutionTransaction(call);
        return Answer.Settled;
      }
      RecordFailure(call, world);
      return Failure;
    }

    /** One call with nobody else running: it ends exactly where the protocol's run of
        one worker ends. */
    method ProcessParametricPayout(call: Call, world: World) returns (answer: Answer)
      modifies this, liquidityPool
      ensures (Rows(), liquidityPool.Balances()) == LoneEnd(old(Rows()), old(liquidityPool.Balances()), call, world)
      ensures answer == LoneAnswer(old(Rows()), old(liquidityPool.Balances()), call, world)
      ensures answer == Answer.Settled ==>
                && PaysFor(old(liquidityPool.pool + liquidityPool.reserve)
                           - (liquidityPool.pool + liquidityPool.reserve), call.approvedPayout)
                && Succeeded(Rows(), KeyOf(call)) && IsApproved(Rows(), ClaimOf(call)) && IsPaid(Rows(), ClaimOf(call))
      ensures answer == CachedSuccess || (answer == Failure && !world.gatewayUp) ==>
                liquidityPool.Balances() == old(liquidityPool.Balances())
    {
      LoneEndIs(Rows(), liquidityPool.Balances(), call, world);
      LoneOutcome(Rows(), liquidityPool.Balances(), call, world);
      var locked, cached := PreGatewayTransaction(call);
      if !locked {
        return if cached then CachedSuccess else Failure;
      }
      answer := SettleLocked(call, world);
    }
  }

  lemma LoneEndIs(db: Db, funds: Pool.Funds, call: Call, world: World)
    ensures var pre := PreGateway(db, call); var end := LoneEnd(db, funds, call, world);
            var paid := world.gatewayUp && Pool.Withdraw(funds, Rupees(call)).Withdrawn?;
            if !pre.Locked? then end == (db, funds)
            else
              && end.0 == (if paid && world.commits then Resolved(pre.db, call) else LoneFailed(pre.db, call, world))
              && end.1 == (if paid then Pool.Withdraw(funds, Rupees(call)).funds else funds)
  {
    LoneRun(Begin(db, funds), call, world);
  }

  /** What a lone call does in terms of its answer. */
  lemma LoneOutcome(db: Db, funds: Pool.Funds, call: Call, world: World)
    ensures var answer := LoneAnswer(db, funds, call, world); var (t, left) := LoneEnd(db, funds, call, world);
            && (answer == Answer.Settled ==>
                  && PaysFor(funds.pool + funds.reserve - (left.pool + left.reserve), call.approvedPayout)
                  && Succeeded(t, KeyOf(call)) && IsApproved(t, ClaimOf(call)) && IsPaid(t, ClaimOf(call)))
            && (answer == CachedSuccess || (answer == Failure && !world.gatewayUp) ==> left == funds)
  {
    LoneEndIs(db, funds, call, world);
    Pool.WithdrawalTakes(funds, Rupees(call));
    RupeesPayFor(call);
  }

  lemma LoneRefused(s: State, call: Call, world: World)
    requires s.workers == map[] && !PreGateway(s.db, call).Locked?
    ensures After(s, LoneCall(call, world)) == s
  {
    AfterFive(s, LoneCall(call, world));
    NobodyThere(s, world);
  }

  lemma LoneLocked(s: State, call: Call, world: World)
    requires s.workers == map[] && PreGateway(s.db, call).Locked?
    ensures var t := After(s, LoneCall(call, world)); var pre := PreGateway(s.db, call);
            var paid := world.gatewayUp && Pool.Withdraw(s.funds, Rupees(call)).Withdrawn?;
            && t.db == (if paid && world.commits then Resolved(pre.db, call) else LoneFailed(pre.db, call, world))
            && t.funds == (if paid then Pool.Withdraw(s.funds, Rupees(call)).funds else s.funds)
  {
    AfterFive(s, LoneCall(call, world));
    LoneGateway(s, call, world.gatewayUp);
    LoneTail(Next(Next(s, Start(0, call)), Gateway(0, world.gatewayUp)), call, world);
  }

  lemma LoneGateway(s: State, call: Call, up: bool)
    requires s.workers == map[] && PreGateway(s.db, call).Locked?
    ensures var t := Next(Next(s, Start(0, call)), Gateway(0, up));
            var paid := up && Pool.Withdraw(s.funds, Rupees(call)).Withdrawn?;
            && t.workers == map[0 := Worker(call, if paid then Stage.Settled else Failing, false)]
            && t.db == PreGateway(s.db, call).db
            && t.funds == (if paid then Pool.Withdraw(s.funds, Rupees(call)).funds else s.funds)
  {
    var s1 := Next(s, Start(0, call));
    assert s1.workers == map[0 := Worker(call, AtGateway, false)];
  }

  /** The failure path's two writes. */
  function LoneFailed(db: Db, call: Call, world: World): Db {
    var failed := if world.keyWritten then SetKeyState(db, KeyOf(call), FAILED) else db;
    if world.payoutWritten then SetPayoutStatus(failed, ClaimOf(call), Rejected) else failed
  }

  /** The run of a lone call, written out. */
  lemma LoneRun(s: State, call: Call, world: World)
    requires s.workers == map[]
    ensures var t := After(s, LoneCall(call, world)); var pre := PreGateway(s.db, call);
            var paid := world.gatewayUp && Pool.Withdraw(s.funds, Rupees(call)).Withdrawn?;
            if !pre.Locked? then t == s
            else
              && t.db == (if paid && world.commits then Resolved(pre.db, call) else LoneFailed(pre.db, call, world))
              && t.funds == (if paid then Pool.Withdraw(s.funds, Rupees(call)).funds else s.funds)
  {
    if PreGateway(s.db, call).Locked? {
      LoneLocked(s, call, world);
    } else {
      LoneRefused(s, call, world);
    }
  }

  lemma NobodyThere(s: State, world: World)
    requires s.workers == map[]
    ensures Next(s, Gateway(0, world.gatewayUp)) == Next(s, Resolve(0)) == Next(s, ResolveFails(0)) == s
    ensures Next(s, MarkKeyFailed(0, world.keyWritten)) == Next(s, MarkRejected(0, world.payoutWritten)) == s
  {}

  lemma LoneTail(s: State, call: Call, world: World)
    requires || s.workers == map[0 := Worker(call, Stage.Settled, false)]
             || s.workers == map[0 := Worker(call, Failing, false)]
    ensures var s3 := Next(s, if world.commits then Resolve(0) else ResolveFails(0));
            var t := Next(Next(s3, MarkKeyFailed(0, world.keyWritten)), MarkRejected(0, world.payoutWritten));
            && t.funds == s.funds
            && t.db == if s.workers[0].stage == Stage.Settled && world.commits then Resolved(s.db, call)
                       else LoneFailed(s.db, call, world)
  {
    var s3 := Next(s, if world.commits then Resolve(0) else ResolveFails(0));
    if s.workers[0].stage == Stage.Settled && world.commits {
      assert s3.workers == map[];
    } else {
      assert s3.workers == map[0 := Worker(call, Failing, false)];
      var s4 := Next(s3, MarkKeyFailed(0, world.keyWritten));
      assert s4.workers == map[0 := Worker(call, Rejecting, false)];
    }
  }

  // ---- The retry cron on values ----

  /** Tables, funds and queue. */
  datatype Desk = Desk(db: Db, funds: Pool.Funds, queue: Queue)

  function RetryOne(d: Desk, world: World, max: nat): Desk
    requires d.queue.waiting != []
  {
    var call := d.queue.waiting[|d.queue.waiting| - 1].call;
    var end := LoneEnd(d.db, d.funds, call, world);
    Desk(end.0, end.1, Work(d.queue, RetryOk(d, world), max))
  }

  /** Whether the settlement of the next entry succeeds. */
  predicate RetryOk(d: Desk, world: World)
    requires d.queue.waiting != []
  {
    LoneAnswer(d.db, d.funds, d.queue.waiting[|d.queue.waiting| - 1].call, world) != Failure
  }

  /** One settlement per popped entry, until the queue or the worlds run out. */
  function RetryAll(d: Desk, worlds: seq<World>, max: nat): Desk
    decreases |worlds|
  {
    if worlds == [] || d.queue.waiting == [] then d else RetryAll(RetryOne(d, worlds[0], max), worlds[1..], max)
  }

  /** Whether each popped entry's settlement succeeded. */
  function RetryOutcomes(d: Desk, worlds: seq<World>, max: nat): seq<bool>
    decreases |worlds|
  {
    if worlds == [] || d.queue.waiting == [] then []
    else [RetryOk(d, worlds[0])] + RetryOutcomes(RetryOne(d, worlds[0], max), worlds[1..], max)
  }

  /** The queue after a batch is the queue's own batch over the outcomes of the settlements. */
  lemma {:induction false} RetryAllIsBatch(d: Desk, worlds: seq<World>, max: nat)
    ensures RetryAll(d, worlds, max).queue == RunBatch(d.queue, RetryOutcomes(d, worlds, max), max)
    decreases |worlds|
  {
    if worlds != [] && d.queue.waiting != [] {
      var later := RetryOne(d, worlds[0], max);
      RetryAllIsBatch(later, worlds[1..], max);
      assert RetryOutcomes(d, worlds, max)[1..] == RetryOutcomes(later, worlds[1..], max);
    }
  }

  lemma LockKeepsSuccess(db: Db, call: Call, k: Key)
    requires PreGateway(db, call).Locked? && Succeeded(db, k)
    ensures Succeeded(PreGateway(db, call).db, k) && k != KeyOf(call)
  {}

  lemma FailedKeepsSuccess(db: Db, call: Call, world: World, k: Key)
    requires Succeeded(db, k) && k != KeyOf(call)
    ensures Succeeded(LoneFailed(db, call, world), k)
  {}

  lemma ResolvedKeepsSuccess(db: Db, call: Call, k: Key)
    requires Succeeded(db, k) || (k == KeyOf(call) && k in db.keys)
    ensures Succeeded(Resolved(db, call), k)
  {}

  lemma LoneKeepsSuccess(db: Db, funds: Pool.Funds, call: Call, world: World, k: Key)
    requires Succeeded(db, k) || (LoneAnswer(db, funds, call, world) == Answer.Settled && k == KeyOf(call))
    ensures Succeeded(LoneEnd(db, funds, call, world).0, k)
  {
    LoneRun(Begin(db, funds), call, world);
    if PreGateway(db, call).Locked? {
      var pre := PreGateway(db, call).db;
      if LoneAnswer(db, funds, call, world) == Answer.Settled {
        if Succeeded(db, k) {
          LockKeepsSuccess(db, call, k);
        }
        ResolvedKeepsSuccess(pre, call, k);
      } else {
        LockKeepsSuccess(db, call, k);
        FailedKeepsSuccess(pre, call, world, k);
      }
    }
  }

  lemma FailedKeepsIndex(db: Db, call: Call, world: World)
    ensures LoneFailed(db, call, world).index == db.index
  {}

  lemma LoneKeepsIndex(db: Db, funds: Pool.Funds, call: Call, world: World, calls: set<Call>)
    requires IndexFromCalls(db, calls) && call in calls
    ensures IndexFromCalls(LoneEnd(db, funds, call, world).0, calls)
  {
    LoneRun(Begin(db, funds), call, world);
    if PreGateway(db, call).Locked? {
      LockKeepsIndex(db, calls, call);
      ResolvedKeepsIndex(PreGateway(db, call).db, call);
      FailedKeepsIndex(PreGateway(db, call).db, call, world);
    }
  }

  ghost predicate WaitingFrom(q: Queue, calls: set<Call>) {
    forall e <- q.waiting :: e.call in calls
  }

  ghost predicate SettledFrom(q: Queue, from: nat, db: Db) {
    from <= |q.settled| && forall i | from <= i < |q.settled| :: Succeeded(db, KeyOf(q.settled[i].call))
  }

  lemma RetryOneSettles(d: Desk, world: World, max: nat, calls: set<Call>, from: nat)
    requires d.queue.waiting != [] && WaitingFrom(d.queue, calls)
    requires IndexFromCalls(d.db, calls) && ContextsIdentifyClaims(calls) && SettledFrom(d.queue, from, d.db)
    ensures var t := RetryOne(d, world, max);
            WaitingFrom(t.queue, calls) && IndexFromCalls(t.db, calls) && SettledFrom(t.queue, from, t.db)
  {
    var last := d.queue.waiting[|d.queue.waiting| - 1];
    assert last in d.queue.waiting;
    var t := RetryOne(d, world, max);
    LoneKeepsIndex(d.db, d.funds, last.call, world, calls);
    if LoneAnswer(d.db, d.funds, last.call, world) == CachedSuccess {
      CachedSpeaksForItself(d.db, calls, last.call);
    }
    forall i | from <= i < |t.queue.settled| ensures Succeeded(t.db, KeyOf(t.queue.settled[i].call)) {
      var k := KeyOf(t.queue.settled[i].call);
      assert i < |d.queue.settled| ==> Succeeded(d.db, k);
      LoneKeepsSuccess(d.db, d.funds, last.call, world, k);
    }
  }

  /** What a settled entry is worth: if no two claims share a user, cell and second, the key of
      every entry that a batch settles reads SUCCESS at its end. */
  lemma {:induction false} SettledEntriesSucceeded(d: Desk, worlds: seq<World>, max: nat, calls: set<Call>, from: nat)
    requires WaitingFrom(d.queue, calls) && IndexFromCalls(d.db, calls) && ContextsIdentifyClaims(calls)
    requires SettledFrom(d.queue, from, d.db)
    ensures var t := RetryAll(d, worlds, max); SettledFrom(t.queue, from, t.db)
    decreases |worlds|
  {
    if worlds != [] && d.queue.waiting != [] {
      RetryOneSettles(d, worlds[0], max, calls, from);
      SettledEntriesSucceeded(RetryOne(d, worlds[0], max), worlds[1..], max, calls, from);
    }
  }

  class PayoutService {
    const payments: PaymentsService
    const maxAttempts: nat
    const batchSize: nat
    var waiting: seq<Entry>
    var dead: seq<Entry>
    ghost var settled: seq<Entry>

    ghost function Entries(): Queue
      reads this
    {
      Queue(waiting, settled, dead)
    }

    constructor (payments: PaymentsService, maxAttempts: nat, batchSize: nat)
      ensures this.payments == payments && this.maxAttempts == maxAttempts && this.batchSize == batchSize
      ensures Entries() == Queue([], [], [])
    {
      this.payments, this.maxAttempts, this.batchSize := payments, maxAttempts, batchSize;
      waiting, dead, settled := [], [], [];
    }

    ghost function State(): Desk
      reads this, payments, payments.liquidityPool
    {
      Desk(payments.Rows(), payments.liquidityPool.Balances(), Entries())
    }

    /** The front door after its eligibility gates: a claim that has any payout row is
        answered as a cached success, whatever the row's status; otherwise the call is settled,
        and a failed one is queued for retry with its own terms and no attempts yet. */
    method ProcessPayout(call: Call, world: World) returns (success: bool, cached: bool)
      modifies this, payments, payments.liquidityPool
      ensures AnsweredByPreCheck(old(payments.Rows()), ClaimOf(call)) ==> success && cached && State() == old(State())
      ensures !AnsweredByPreCheck(old(payments.Rows()), ClaimOf(call)) ==>
                var answer := LoneAnswer(old(State()).db, old(State()).funds, call, world);
                && (State().db, State().funds) == LoneEnd(old(State()).db, old(State()).funds, call, world)
                && success == (answer != Failure) && cached == (answer == CachedSuccess)
                && Entries() == if success then old(Entries()) else Push(old(Entries()), Entry(call, 0))
      ensures waiting == old(waiting) || (!success && waiting == [Entry(call, 0)] + old(waiting))
      ensures !success ==> waiting != old(waiting)
      ensures dead == old(dead) && settled == old(settled)
    {
      if ClaimOf(call) in payments.payouts {
        return true, true;
      }
      var answer := payments.ProcessParametricPayout(call, world);
      if answer == Failure {
        waiting := [Entry(call, 0)] + waiting;
        return false, false;
      }
      return true, answer == CachedSuccess;
    }

    /** Where a tried entry goes. */
    method Route(tried: Entry, ok: bool)
      modifies this
      ensures settled == old(settled) + (if ok then [tried] else [])
      ensures dead == old(dead) + (if !ok && tried.attempts >= maxAttempts then [tried] else [])
      ensures waiting == (if !ok && tried.attempts < maxAttempts then [tried] else []) + old(waiting)
    {
      if ok {
        settled := settled + [tried];
      } else if tried.attempts >= maxAttempts {
        dead := dead + [tried];
      } else {
        waiting := [tried] + waiting;
      }
    }

    /** One popped entry: settle it, then count it settled, requeue it or bury it. */
    method RetryEntry(world: World) returns (ok: bool)
      requires waiting != []
      modifies this, payments, payments.liquidityPool
      ensures State() == RetryOne(old(State()), world, maxAttempts)
      ensures ok == RetryOk(old(State()), world)
      ensures var e := old(waiting[|waiting| - 1]); var tried := Entry(e.call, e.attempts + 1);
              var others := old(waiting[..|waiting| - 1]);
              && settled == old(settled) + (if ok then [tried] else [])
              && dead == old(dead) + (if !ok && tried.attempts >= maxAttempts then [tried] else [])
              && waiting == (if !ok && tried.attempts < maxAttempts then [tried] else []) + others
    {
      RetryOneMoves(State(), world, maxAttempts);
      var n := |waiting| - 1;
      var entry := waiting[n];
      waiting := waiting[..n];
      var attempts := entry.attempts + 1;
      var answer := payments.ProcessParametricPayout(entry.call, world);
      ok := answer != Failure;
      Route(entry.(attempts := attempts), ok);
    }

    /** The retry cron: payments tables, funds and queue end as the fold of one settlement per
        popped entry. */
    method ProcessPayoutRetryQueue(worlds: seq<World>) returns (processed: nat, ghost outcomes: seq<bool>)
      requires |worlds| >= batchSize
      modifies this, payments, payments.liquidityPool
      ensures State() == RetryAll(old(State()), worlds[..batchSize], maxAttempts)
      ensures outcomes == RetryOutcomes(old(State()), worlds[..batchSize], maxAttempts)
      ensures Entries() == RunBatch(old(Entries()), outcomes, maxAttempts)
      ensures processed == |outcomes| <= batchSize
      ensures processed < batchSize ==> waiting == []
    {
      processed, outcomes := 0, [];
      ghost var batch := worlds[..batchSize];
      RetryStarts(State(), batch, maxAttempts);
      while processed < batchSize
        invariant processed == |outcomes| <= batchSize
        invariant RetryAt(old(State()), State(), batch, processed, outcomes, maxAttempts)
      {
        if waiting == [] {
          break;
        }
        RetryAdvances(old(State()), State(), batch, processed, outcomes, maxAttempts);
        var ok := RetryEntry(worlds[processed]);
        processed := processed + 1;
        outcomes := outcomes + [ok];
      }
      RetryDone(old(State()), State(), batch, processed, outcomes, maxAttempts);
    }
  }

  lemma RetryOneMoves(d: Desk, world: World, max: nat)
    requires d.queue.waiting != []
    ensures var q, ok := d.queue, RetryOk(d, world);
            var last := q.waiting[|q.waiting| - 1]; var tried := Entry(last.call, last.attempts + 1);
            RetryOne(d, world, max) ==
            Desk(LoneEnd(d.db, d.funds, last.call, world).0, LoneEnd(d.db, d.funds, last.call, world).1,
                 Queue((if !ok && tried.attempts < max then [tried] else []) + q.waiting[..|q.waiting| - 1],
                       q.settled + (if ok then [tried] else []),
                       q.dead + (if !ok && tried.attempts >= max then [tried] else [])))
  {
    WorkMoves(d.queue, RetryOk(d, world), max);
  }

  /** After i entries of a batch from `d` the desk stands at `t`. */
  ghost predicate RetryAt(d: Desk, t: Desk, batch: seq<World>, i: nat, outcomes: seq<bool>, max: nat) {
    && i <= |batch|
    && RetryAll(d, batch, max) == RetryAll(t, batch[i..], max)
    && RetryOutcomes(d, batch, max) == outcomes + RetryOutcomes(t, batch[i..], max)
  }

  lemma RetryStarts(d: Desk, batch: seq<World>, max: nat)
    ensures RetryAt(d, d, batch, 0, [], max)
  {
    assert batch[0..] == batch;
    assert [] + RetryOutcomes(d, batch, max) == RetryOutcomes(d, batch, max);
  }

  lemma RetryAdvances(d: Desk, t: Desk, batch: seq<World>, i: nat, outcomes: seq<bool>, max: nat)
    requires RetryAt(d, t, batch, i, outcomes, max) && i < |batch| && t.queue.waiting != []
    ensures RetryAt(d, RetryOne(t, batch[i], max), batch, i + 1, outcomes + [RetryOk(t, batch[i])], max)
  {
    assert batch[i..][0] == batch[i] && batch[i..][1..] == batch[i + 1..];
    RetryUnfolds(t, batch[i..], max);
    MoveOver(outcomes, RetryOk(t, batch[i]), RetryOutcomes(RetryOne(t, batch[i], max), batch[i + 1..], max));
  }

  lemma RetryDone(d: Desk, t: Desk, batch: seq<World>, i: nat, outcomes: seq<bool>, max: nat)
    requires RetryAt(d, t, batch, i, outcomes, max) && (i == |batch| || t.queue.waiting == [])
    ensures RetryAll(d, batch, max) == t && RetryOutcomes(d, batch, max) == outcomes
    ensures t.queue == RunBatch(d.queue, outcomes, max)
  {
    RetryAllIsBatch(d, batch, max);
    assert outcomes + [] == outcomes;
  }

  lemma RetryUnfolds(d: Desk, worlds: seq<World>, max: nat)
    requires worlds != [] && d.queue.waiting != []
    ensures var t := RetryOne(d, worlds[0], max);
            && RetryAll(d, worlds, max) == RetryAll(t, worlds[1..], max)
            && RetryOutcomes(d, worlds, max) == [RetryOk(d, worlds[0])] + RetryOutcomes(t, worlds[1..], max)
  {}

  /** After a lone call that the gateway refuses, the front door answers cached success for a
      claim that was never paid. When its answer is true is PreCheckTrueIff. */
  lemma {:induction false} FailedClaimReadsAsCached(init: State, call: Call, world: World)
    requires Initial(init) && PreGateway(init.db, call).Locked? && !world.gatewayUp
    ensures var t := After(init, LoneCall(call, world));
            && AnsweredByPreCheck(t.db, ClaimOf(call)) && t.ledger == []
            && !IsApproved(t.db, ClaimOf(call)) && !IsPaid(t.db, ClaimOf(call))
  {
    LoneRun(init, call, world);
    RefusedPaysNobody(init, call, world);
  }

  lemma RefusedPaysNobody(init: State, call: Call, world: World)
    requires init.workers == map[] && PreGateway(init.db, call).Locked? && !world.gatewayUp
    ensures After(init, LoneCall(call, world)).ledger == init.ledger
  {
    AfterFive(init, LoneCall(call, world));
    var s1 := Next(init, Start(0, call));
    GatewayPaysOwnKey(init, Start(0, call));
    assert s1.workers == map[0 := Worker(call, AtGateway, false)];
    GatewayRefusal(s1, 0);
    TailPaysNobody(Next(s1, Gateway(0, false)), world);
  }

  lemma TailPaysNobody(s: State, world: World)
    ensures var s3 := Next(s, if world.commits then Resolve(0) else ResolveFails(0));
            Next(Next(s3, MarkKeyFailed(0, world.keyWritten)), MarkRejected(0, world.payoutWritten)).ledger == s.ledger
  {
    var s3 := Next(s, if world.commits then Resolve(0) else ResolveFails(0));
    GatewayPaysOwnKey(s, if world.commits then Resolve(0) else ResolveFails(0));
    GatewayPaysOwnKey(s3, MarkKeyFailed(0, world.keyWritten));
    GatewayPaysOwnKey(Next(s3, MarkKeyFailed(0, world.keyWritten)), MarkRejected(0, world.payoutWritten));
  }
}
