/** The payout front door and the retry cron at work together: what a settled entry is worth,
    and why a claim that comes in one request at a time is paid once. */
module PayoutDesk {
  import opened Settlement
  import opened SettlementAnswers
  import opened SettlementTotals
  import opened RetryQueue
  import opened PayoutServices
  import Pool = LiquidityPool

  // ---- Settled entries ----

  const GOOD := World(true, true, true, true)

  /** Every entry that a batch over these calls settles has a SUCCESS key. */
  ghost predicate SettledMeansPaid(init: State, calls: set<Call>, max: nat) {
    forall q: Queue, worlds | q.settled == [] && WaitingFrom(q, calls) ::
      var t := RetryAll(Desk(init.db, init.funds, q), worlds, max); SettledFrom(t.queue, 0, t.db)
  }

  lemma GoodCall(db: Db, funds: Pool.Funds, call: Call)
    requires PreGateway(db, call).Locked? && Rupees(call) <= funds.pool
    ensures LoneAnswer(db, funds, call, GOOD) == Answer.Settled
    ensures LoneEnd(db, funds, call, GOOD).0 == Resolved(PreGateway(db, call).db, call)
  {
    LoneRun(Begin(db, funds), call, GOOD);
  }

  lemma CachedCall(db: Db, funds: Pool.Funds, call: Call)
    requires PreGateway(db, call).Cached?
    ensures LoneAnswer(db, funds, call, GOOD) == CachedSuccess && LoneEnd(db, funds, call, GOOD) == (db, funds)
  {
    LoneRun(Begin(db, funds), call, GOOD);
  }

  function TwinQueue(a: Call, b: Call): Queue {
    Queue([Entry(b, 0), Entry(a, 0)], [], [])
  }

  /** A batch over two claims with one user, cell and second settles both and pays one. */
  lemma TwinBatch(init: State, a: Call, b: Call, max: nat)
    requires Initial(init) && Payable(init, {a, b})
    requires SameContext(a, b) && !SameClaim(a, b)
    ensures var t := RetryAll(Desk(init.db, init.funds, TwinQueue(a, b)), [GOOD, GOOD], max);
            t.queue.settled == [Entry(a, 1), Entry(b, 1)] && !Succeeded(t.db, KeyOf(b))
  {
    assert a in {a, b} && b in {a, b};
    assert Rupees(a) + Rupees(b) <= init.funds.pool && Rupees(b) >= 1.0;
    FirstLocks(init, a);
    TwinIsAnsweredFor(init.db, a, b);
    var d := Desk(init.db, init.funds, TwinQueue(a, b));
    FirstTwin(d, a, b, max);
    SecondTwin(RetryOne(d, GOOD, max), a, b, max);
    RetryUnfolds(d, [GOOD, GOOD], max);
    RetryUnfolds(RetryOne(d, GOOD, max), [GOOD], max);
    assert [GOOD, GOOD][1..] == [GOOD] && [GOOD][1..] == [];
  }

  lemma FirstTwin(d: Desk, a: Call, b: Call, max: nat)
    requires d.queue == TwinQueue(a, b) && PreGateway(d.db, a).Locked? && Rupees(a) <= d.funds.pool
    ensures var t := RetryOne(d, GOOD, max);
            t.queue == Queue([Entry(b, 0)], [Entry(a, 1)], []) && t.db == Resolved(PreGateway(d.db, a).db, a)
  {
    GoodCall(d.db, d.funds, a);
  }

  lemma SecondTwin(d: Desk, a: Call, b: Call, max: nat)
    requires d.queue == Queue([Entry(b, 0)], [Entry(a, 1)], []) && PreGateway(d.db, b).Cached?
    ensures var t := RetryOne(d, GOOD, max);
            t.queue == Queue([], [Entry(a, 1), Entry(b, 1)], []) && t.db == d.db
  {
    CachedCall(d.db, d.funds, b);
  }

  /** Over all batches of entries from a set of calls, every settled entry's key reads SUCCESS
      exactly when no two of the calls carry different claims for one user, cell and second. */
  lemma {:induction false} SettledMeansPaidIff(init: State, calls: set<Call>, max: nat)
    requires Initial(init) && Payable(init, calls)
    ensures SettledMeansPaid(init, calls, max) <==> ContextsIdentifyClaims(calls)
  {
    if ContextsIdentifyClaims(calls) {
      forall q: Queue, worlds | q.settled == [] && WaitingFrom(q, calls)
        ensures var t := RetryAll(Desk(init.db, init.funds, q), worlds, max); SettledFrom(t.queue, 0, t.db)
      {
        SettledEntriesSucceeded(Desk(init.db, init.funds, q), worlds, max, calls, 0);
      }
    } else {
      var a, b :| a in calls && b in calls && SameContext(a, b) && !SameClaim(a, b);
      TwinBatch(init, a, b, max);
      var q := TwinQueue(a, b);
      assert q.settled == [] && WaitingFrom(q, calls);
      var t := RetryAll(Desk(init.db, init.funds, q), [GOOD, GOOD], max);
      assert t.queue.settled[1].call == b;
    }
  }

  // ---- Requests one at a time ----

  datatype Request = Front(call: Call, world: World) | Retry(world: World)

  /** `ledger` records history: the keys disbursed, in order. */
  datatype Office = Office(desk: Desk, ledger: seq<Key>)

  /** The keys a lone call disburses. */
  function LonePaid(db: Db, funds: Pool.Funds, call: Call, world: World): seq<Key> {
    After(Begin(db, funds), LoneCall(call, world)).ledger
  }

  function ServeFront(o: Office, call: Call, world: World): Office {
    var d := o.desk;
    if AnsweredByPreCheck(d.db, ClaimOf(call)) then o
    else
      var end := LoneEnd(d.db, d.funds, call, world);
      var failed := LoneAnswer(d.db, d.funds, call, world) == Failure;
      Office(Desk(end.0, end.1, if failed then Push(d.queue, Entry(call, 0)) else d.queue),
             o.ledger + LonePaid(d.db, d.funds, call, world))
  }

  function ServeRetry(o: Office, world: World, max: nat): Office {
    var d := o.desk;
    if d.queue.waiting == [] then o
    else
      var call := d.queue.waiting[|d.queue.waiting| - 1].call;
      Office(RetryOne(d, world, max), o.ledger + LonePaid(d.db, d.funds, call, world))
  }

  /** One request through the front door, or one entry of the retry cron. */
  function Serve(o: Office, r: Request, max: nat): Office {
    match r
    case Front(call, world) => ServeFront(o, call, world)
    case Retry(world) => ServeRetry(o, world, max)
  }

  function ServeAll(o: Office, rs: seq<Request>, max: nat): Office {
    if rs == [] then o else Serve(ServeAll(o, rs[..|rs| - 1], max), rs[|rs| - 1], max)
  }

  predicate OwnerValid(db: Db, call: Call) {
    call.policyId in db.owners && db.owners[call.policyId] == call.userId
  }

  /** A call that can no longer create a key row: it has one, or it is refused before. */
  predicate CannotCreate(db: Db, call: Call) {
    KeyOf(call) in db.keys || !OwnerValid(db, call) || ContextOf(call) in db.index
  }

  /** One key per claim, made together with the claim's payout row. */
  ghost predicate OneKeyPerClaim(db: Db) {
    && (forall k, l | k in db.keys && l in db.keys && k.claim == l.claim :: k == l)
    && (forall k | k in db.keys :: k.claim in db.payouts)
  }

  ghost predicate QueueCannotCreate(db: Db, q: Queue) {
    forall e <- q.waiting :: CannotCreate(db, e.call)
  }

  ghost predicate PaidOnce(db: Db, ledger: seq<Key>) {
    (forall k <- ledger :: Succeeded(db, k)) && forall k :: multiset(ledger)[k] <= 1
  }

  ghost predicate InOrder(o: Office) {
    OneKeyPerClaim(o.desk.db) && QueueCannotCreate(o.desk.db, o.desk.queue) && PaidOnce(o.desk.db, o.ledger)
  }

  /** What a lone call may add to the tables. */
  ghost predicate Grows(db: Db, t: Db, call: Call) {
    && t.owners == db.owners && db.index.Keys <= t.index.Keys
    && t.keys.Keys == db.keys.Keys + {KeyOf(call)} && t.payouts.Keys == db.payouts.Keys + {ClaimOf(call)}
  }

  lemma LockGrows(db: Db, call: Call)
    requires PreGateway(db, call).Locked?
    ensures Grows(db, PreGateway(db, call).db, call)
  {}

  predicate SameRows(db: Db, t: Db) {
    && t.owners == db.owners && t.index == db.index
    && t.keys.Keys == db.keys.Keys && t.payouts.Keys == db.payouts.Keys
  }

  lemma UpdatesKeepRows(db: Db, k: Key, state: KeyState, c: Claim, payout: PayoutStatus, claim: ClaimStatus)
    ensures SameRows(db, SetKeyState(db, k, state))
    ensures SameRows(db, SetPayoutStatus(db, c, payout))
    ensures SameRows(db, SetClaimStatus(db, c, claim))
  {}

  lemma ResolvedKeepsRows(db: Db, call: Call)
    ensures SameRows(db, Resolved(db, call))
  {
    var c := ClaimOf(call);
    var paid := SetPayoutStatus(db, c, Approved);
    UpdatesKeepRows(db, KeyOf(call), SUCCESS, c, Approved, ClaimPaid);
    UpdatesKeepRows(paid, KeyOf(call), SUCCESS, c, Approved, ClaimPaid);
    UpdatesKeepRows(SetClaimStatus(paid, c, ClaimPaid), KeyOf(call), SUCCESS, c, Approved, ClaimPaid);
  }

  lemma FailedKeepsRows(db: Db, call: Call, world: World)
    ensures SameRows(db, LoneFailed(db, call, world))
  {
    UpdatesKeepRows(db, KeyOf(call), FAILED, ClaimOf(call), Rejected, UnderReview);
    UpdatesKeepRows(SetKeyState(db, KeyOf(call), FAILED), KeyOf(call), FAILED, ClaimOf(call), Rejected, UnderReview);
  }

  lemma LoneGrows(db: Db, funds: Pool.Funds, call: Call, world: World)
    ensures var t := LoneEnd(db, funds, call, world).0;
            if PreGateway(db, call).Locked? then Grows(db, t, call) else t == db
  {
    LoneRun(Begin(db, funds), call, world);
    if PreGateway(db, call).Locked? {
      LockGrows(db, call);
      ResolvedKeepsRows(PreGateway(db, call).db, call);
      FailedKeepsRows(PreGateway(db, call).db, call, world);
    }
  }

  lemma LonePaysOwnKey(db: Db, funds: Pool.Funds, call: Call, world: World)
    requires world.commits
    ensures LonePaid(db, funds, call, world)
            == if LoneAnswer(db, funds, call, world) == Answer.Settled then [KeyOf(call)] else []
  {
    var s := Begin(db, funds);
    if !PreGateway(db, call).Locked? {
      LoneRefused(s, call, world);
    } else {
      AfterFive(s, LoneCall(call, world));
      LoneGatewayPays(s, call, world.gatewayUp);
      TailPaysNobody(Next(Next(s, Start(0, call)), Gateway(0, world.gatewayUp)), world);
    }
  }

  lemma LoneGatewayPays(s: State, call: Call, up: bool)
    requires s.workers == map[] && PreGateway(s.db, call).Locked?
    ensures Next(Next(s, Start(0, call)), Gateway(0, up)).ledger
            == s.ledger + if up && Pool.Withdraw(s.funds, Rupees(call)).Withdrawn? then [KeyOf(call)] else []
  {
    var s1 := Next(s, Start(0, call));
    assert s1.workers == map[0 := Worker(call, AtGateway, false)] && s1.ledger == s.ledger;
    assert s.ledger + [] == s.ledger;
  }

  /** Ledger and keys after one lone call. */
  lemma LoneKeepsPaidOnce(db: Db, funds: Pool.Funds, call: Call, world: World, ledger: seq<Key>)
    requires world.commits && PaidOnce(db, ledger)
    ensures PaidOnce(LoneEnd(db, funds, call, world).0, ledger + LonePaid(db, funds, call, world))
  {
    LonePaysOwnKey(db, funds, call, world);
    var t, paid := LoneEnd(db, funds, call, world).0, LonePaid(db, funds, call, world);
    forall k <- ledger + paid ensures Succeeded(t, k) {
      LoneKeepsSuccess(db, funds, call, world, k);
    }
    if paid != [] {
      assert PreGateway(db, call).Locked? && KeyOf(call) !in ledger;
    }
    assert multiset(ledger + paid) == multiset(ledger) + multiset(paid);
  }

  /** A call that locks without being able to create a key already had one. */
  lemma CannotCreateLocksOld(db: Db, call: Call)
    requires CannotCreate(db, call) && PreGateway(db, call).Locked?
    ensures KeyOf(call) in db.keys
  {}

  lemma RefusedCannotCreate(db: Db, call: Call)
    requires PreGateway(db, call).Refused?
    ensures CannotCreate(db, call)
  {}

  lemma GrowthKeepsQueue(db: Db, t: Db, call: Call, q: Queue)
    requires QueueCannotCreate(db, q) && (t == db || Grows(db, t, call))
    ensures QueueCannotCreate(t, q)
  {}

  lemma FrontKeepsOrder(o: Office, call: Call, world: World)
    requires InOrder(o) && world.commits
    ensures InOrder(ServeFront(o, call, world))
  {
    var d := o.desk;
    if !AnsweredByPreCheck(d.db, ClaimOf(call)) {
      var t := LoneEnd(d.db, d.funds, call, world).0;
      LoneGrows(d.db, d.funds, call, world);
      LoneKeepsPaidOnce(d.db, d.funds, call, world, o.ledger);
      GrowthKeepsQueue(d.db, t, call, d.queue);
      if PreGateway(d.db, call).Refused? {
        RefusedCannotCreate(d.db, call);
      }
    }
  }

  lemma RetryKeepsOrder(o: Office, world: World, max: nat)
    requires InOrder(o) && world.commits
    ensures InOrder(ServeRetry(o, world, max))
  {
    var d := o.desk;
    if d.queue.waiting != [] {
      var last := d.queue.waiting[|d.queue.waiting| - 1];
      assert last in d.queue.waiting;
      LoneGrows(d.db, d.funds, last.call, world);
      LoneKeepsPaidOnce(d.db, d.funds, last.call, world, o.ledger);
      if PreGateway(d.db, last.call).Locked? {
        CannotCreateLocksOld(d.db, last.call);
      }
      GrowthKeepsQueue(d.db, LoneEnd(d.db, d.funds, last.call, world).0, last.call, d.queue);
    }
  }

  predicate Commits(r: Request) {
    r.world.commits
  }

  lemma {:induction false} ServiceStaysInOrder(o: Office, rs: seq<Request>, max: nat)
    requires InOrder(o) && forall r <- rs :: Commits(r)
    ensures InOrder(ServeAll(o, rs, max))
  {
    if rs != [] {
      var front, r := rs[..|rs| - 1], rs[|rs| - 1];
      ServiceStaysInOrder(o, front, max);
      assert r in rs;
      match r
      case Front(call, world) => FrontKeepsOrder(ServeAll(o, front, max), call, world);
      case Retry(world) => RetryKeepsOrder(ServeAll(o, front, max), world, max);
    }
  }

  function Opening(owners: map<string, string>, funds: Pool.Funds): Office {
    Office(Desk(Db(owners, map[], map[], map[], map[]), funds, Queue([], [], [])), [])
  }

  /** Requests that enter by the front door and the retry cron, one at a time and with phase 2
      committing, pay no claim twice, whatever users, cells, timestamps and amounts they carry:
      the first lock of a claim makes the payout row that closes the front door to it, and an
      entry in the queue can only ever lock a key that exists. */
  lemma OneAtATimePaysOnce(owners: map<string, string>, funds: Pool.Funds, rs: seq<Request>, max: nat, c: Claim)
    requires forall r <- rs :: Commits(r)
    ensures !PaidTwice(ServeAll(Opening(owners, funds), rs, max).ledger, c)
  {
    var o := ServeAll(Opening(owners, funds), rs, max);
    ServiceStaysInOrder(Opening(owners, funds), rs, max);
    if i: nat, j: nat :| i < j < |o.ledger| && o.ledger[i].claim == c && o.ledger[j].claim == c {
      assert o.ledger[i] in o.ledger && o.ledger[j] in o.ledger;
      assert o.ledger[i] == o.ledger[j];
      NoRepeatInLedger(o.ledger, i, j);
    }
  }
}
