/** What a cached answer is worth: the two places that answer "already paid" without paying,
    and exactly when they are right. */
module SettlementAnswers {
  import opened Settlement
  import opened SettlementBooks
  import opened SettlementTotals
  import IdempotencyKey

  /** The model's key stands for the hashed text: equal exactly when the texts are. */
  lemma {:induction false} KeyIsTheHashedText(a: Call, b: Call)
    requires |a.policyId| == |b.policyId| == IdempotencyKey.UUID_LENGTH
    requires IdempotencyKey.FourDigitYear(a.eventTimestamp) && IdempotencyKey.FourDigitYear(b.eventTimestamp)
    ensures IdempotencyKey.BuildKey(IdempotencyKey.ClaimId(a.policyId, a.disruptionEventId), a.eventTimestamp)
            == IdempotencyKey.BuildKey(IdempotencyKey.ClaimId(b.policyId, b.disruptionEventId), b.eventTimestamp)
            <==> KeyOf(a) == KeyOf(b)
  {
    IdempotencyKey.KeyIdentifiesClaimHour(a.policyId, a.disruptionEventId, a.eventTimestamp,
                                          b.policyId, b.disruptionEventId, b.eventTimestamp);
  }

  // ---- The front door's pre-check ----

  /** The front door answers cached success for a claim that has a payout row. */
  predicate AnsweredByPreCheck(db: Db, c: Claim) {
    c in db.payouts
  }

  /** The pre-check's cached success is true exactly when the row it found is APPROVED or a
      late rejection overwrote it. */
  lemma {:induction false} PreCheckTrueIff(init: State, steps: seq<Step>, terms: map<Claim, Call>, c: Claim)
    requires Initial(init) && WellKeyed(terms) && Follows(steps, terms)
    requires AnsweredByPreCheck(After(init, steps).db, c)
    ensures IsPaid(After(init, steps).db, c)
            <==> IsApproved(After(init, steps).db, c) || LateRejectedIn(init, steps, c)
  {
    KeyClaimAndPayoutAgree(init, steps, terms, c);
    OverwrittenMeansLateRejection(init, steps, c);
    EveryRunKeepsBooks(init, steps, terms);
    var s := After(init, steps);
    if c in s.overwritten {
      assert ClaimAgrees(s.db, s.overwritten, terms[c]);
    }
  }

  /** If calls of one claim never overlap, the row's own status tells: the cached success is
      true exactly when the row is APPROVED. */
  lemma {:induction false} PreCheckTrueIffApproved(init: State, steps: seq<Step>, terms: map<Claim, Call>, c: Claim)
    requires Initial(init) && WellKeyed(terms) && Follows(steps, terms) && OneCallPerClaim(init, steps)
    requires AnsweredByPreCheck(After(init, steps).db, c)
    ensures IsPaid(After(init, steps).db, c) <==> IsApproved(After(init, steps).db, c)
  {
    OneCallPerClaimKeepsBooksTogether(init, steps, terms);
  }

  // ---- The locking transaction's cached answer ----

  /** The key rows' legacy constraint: every entry was made by a call with its context. */
  ghost predicate IndexFromCalls(db: Db, calls: set<Call>) {
    forall ctx | ctx in db.index :: exists a <- calls :: ContextOf(a) == ctx && KeyOf(a) == db.index[ctx]
  }

  predicate ContextsIdentifyClaims(calls: set<Call>) {
    forall a <- calls, b <- calls | SameContext(a, b) :: SameClaim(a, b)
  }

  lemma LockKeepsIndex(db: Db, calls: set<Call>, call: Call)
    requires IndexFromCalls(db, calls) && call in calls && PreGateway(db, call).Locked?
    ensures IndexFromCalls(PreGateway(db, call).db, calls)
  {
    var t := PreGateway(db, call).db;
    forall ctx | ctx in t.index ensures exists a <- calls :: ContextOf(a) == ctx && KeyOf(a) == t.index[ctx] {
      if ctx in db.index && t.index[ctx] == db.index[ctx] {
        var a :| a in calls && ContextOf(a) == ctx && KeyOf(a) == db.index[ctx];
      }
    }
  }

  lemma ResolvedKeepsIndex(db: Db, call: Call)
    ensures Resolved(db, call).index == db.index
  {
    var others := SetClaimStatus(SetPayoutStatus(db, ClaimOf(call), Approved), ClaimOf(call), ClaimPaid);
    assert others.index == db.index;
  }

  lemma OnlyStartIndexes(s: State, step: Step)
    requires !step.Start?
    ensures Next(s, step).db.index == s.db.index
  {
    match step
    case Resolve(w) =>
      if Alive(s, w, Settled) {
        ResolvedKeepsIndex(s.db, s.workers[w].call);
      }
    case MarkKeyFailed(w, _) =>
    case MarkRejected(w, _) =>
    case _ => OtherStepsKeepTables(s, step);
  }

  lemma {:induction false} IndexComesFromCalls(init: State, steps: seq<Step>, calls: set<Call>)
    requires Initial(init) && CallsFrom(steps, calls)
    ensures IndexFromCalls(After(init, steps).db, calls)
  {
    if steps != [] {
      var front, step := steps[..|steps| - 1], steps[|steps| - 1];
      IndexComesFromCalls(init, front, calls);
      var s := After(init, front);
      if !step.Start? {
        OnlyStartIndexes(s, step);
      } else if step.w !in s.workers && PreGateway(s.db, step.call).Locked? {
        LockKeepsIndex(s.db, calls, step.call);
      }
    }
  }

  /** A cached answer found through another claim's context is a cached answer for a key
      without a row. */
  lemma CachedSpeaksForItself(db: Db, calls: set<Call>, call: Call)
    requires IndexFromCalls(db, calls) && ContextsIdentifyClaims(calls) && call in calls
    requires PreGateway(db, call).Cached?
    ensures Succeeded(db, KeyOf(call))
  {
    assert ContextOf(call) in db.index ==> db.index[ContextOf(call)] == KeyOf(call);
  }

  ghost predicate CachedAnswersTrue(init: State, calls: set<Call>) {
    forall steps, call | CallsFrom(steps, calls) && call in calls && PreGateway(After(init, steps).db, call).Cached? ::
      Succeeded(After(init, steps).db, KeyOf(call))
  }

  /** The first of two claims with one context is paid; the second has no row anywhere, and
      both are answered from the first one's key. */
  ghost predicate TwinAnsweredFor(db: Db, a: Call, b: Call) {
    && PreGateway(db, a).Cached? && PreGateway(db, b).Cached?
    && KeyOf(b) !in db.keys && ClaimOf(b) !in db.payouts && ClaimOf(b) !in db.claims
  }

  lemma TwinIsAnsweredFor(db: Db, a: Call, b: Call)
    requires db.keys == map[] && db.index == map[] && db.payouts == map[] && db.claims == map[]
    requires PreGateway(db, a).Locked? && SameContext(a, b) && !SameClaim(a, b)
    requires b.policyId in db.owners && db.owners[b.policyId] == b.userId
    ensures TwinAnsweredFor(Resolved(PreGateway(db, a).db, a), a, b)
  {
    var t := Resolved(PreGateway(db, a).db, a);
    assert t.keys.Keys == {KeyOf(a)} && t.index == map[ContextOf(a) := KeyOf(a)];
    assert ClaimOf(a) != ClaimOf(b);
  }

  /** With nobody running and both calls answered from cache, nothing moves but premiums. */
  lemma NothingStarts(s: State, step: Step, a: Call, b: Call)
    requires s.workers == map[] && TwinAnsweredFor(s.db, a, b) && (step.Start? ==> step.call in {a, b})
    ensures Next(s, step).workers == map[] && Next(s, step).db == s.db
  {}

  /** Two claims of one user in one cell and second: once the first is paid, every call of the
      second is answered as paid, and however the two calls are repeated it never gets a key, a
      payout or a claim case. */
  lemma {:induction false} TwinClaimNeverPaid(init: State, a: Call, b: Call, more: seq<Step>)
    requires Initial(init) && Payable(init, {a, b}) && CallsFrom(more, {a, b})
    requires SameContext(a, b) && !SameClaim(a, b)
    ensures var s := After(init, ThreeSteps(a) + more); s.workers == map[] && TwinAnsweredFor(s.db, a, b)
  {
    if more == [] {
      assert a in {a, b} && b in {a, b};
      assert Rupees(a) + Rupees(b) <= init.funds.pool && Rupees(b) >= 1.0;
      FirstLocks(init, a);
      RunsThrough(init, a);
      TwinIsAnsweredFor(init.db, a, b);
      assert ThreeSteps(a) + more == ThreeSteps(a);
    } else {
      var front, last := more[..|more| - 1], more[|more| - 1];
      TwinClaimNeverPaid(init, a, b, front);
      assert ThreeSteps(a) + more == ThreeSteps(a) + front + [last];
      AfterSnoc(init, ThreeSteps(a) + front, last);
      NothingStarts(After(init, ThreeSteps(a) + front), last, a, b);
    }
  }

  /** Over all runs of a set of calls, a cached answer of the locking transaction means that
      the caller's own key is SUCCESS, exactly when no two of the calls carry different claims
      for one user, cell and second. */
  lemma {:induction false} CachedAnswersTrueIff(init: State, calls: set<Call>)
    requires Initial(init) && Payable(init, calls)
    ensures CachedAnswersTrue(init, calls) <==> ContextsIdentifyClaims(calls)
  {
    if ContextsIdentifyClaims(calls) {
      forall steps, call
        | CallsFrom(steps, calls) && call in calls && PreGateway(After(init, steps).db, call).Cached?
        ensures Succeeded(After(init, steps).db, KeyOf(call))
      {
        IndexComesFromCalls(init, steps, calls);
        CachedSpeaksForItself(After(init, steps).db, calls, call);
      }
    } else {
      var a, b :| a in calls && b in calls && SameContext(a, b) && !SameClaim(a, b);
      TwinClaimNeverPaid(init, a, b, []);
      assert ThreeSteps(a) + [] == ThreeSteps(a);
      assert CallsFrom(ThreeSteps(a), calls) && !Succeeded(After(init, ThreeSteps(a)).db, KeyOf(b));
    }
  }
}
