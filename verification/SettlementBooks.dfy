/** What the books say about a settlement run: when key, claim case and payout row
    agree, what left the pool, and when a claim can be paid under two keys. */
module SettlementBooks {
  import opened Settlement

  // ---- Runs in which every claim always carries the same terms ----

  /** The retry queue re-sends a claim with its first user, cell, timestamp and amount. */
  ghost predicate Follows(steps: seq<Step>, terms: map<Claim, Call>) {
    forall i | 0 <= i < |steps| && steps[i].Start? :: Agrees(steps[i].call, terms)
  }

  predicate Agrees(call: Call, terms: map<Claim, Call>) {
    ClaimOf(call) in terms && terms[ClaimOf(call)] == call
  }

  ghost predicate RowsAgree(db: Db, terms: map<Claim, Call>) {
    && (forall k | k in db.keys :: k.claim in terms && k == KeyOf(terms[k.claim]))
    && (forall k | k in db.keys :: k.claim in db.payouts && k.claim in db.claims)
    && (forall c | c in db.payouts :: c in terms && KeyOf(terms[c]) in db.keys)
    && (forall c | c in db.claims :: c in db.payouts)
    && (forall c | c in db.payouts :: db.payouts[c].approvedPayout == terms[c].approvedPayout)
  }

  ghost predicate ClaimAgrees(db: Db, overwritten: set<Claim>, call: Call) {
    var c := ClaimOf(call);
    var ok := Succeeded(db, KeyOf(call));
    && (IsPaid(db, c) <==> ok)
    && (IsApproved(db, c) <==> ok && c !in overwritten)
    && (c in overwritten ==> ok)
  }

  ghost predicate StatusesAgree(db: Db, overwritten: set<Claim>, terms: map<Claim, Call>) {
    forall c | c in terms :: ClaimAgrees(db, overwritten, terms[c])
  }

  ghost predicate Books(s: State, terms: map<Claim, Call>) {
    && Safe(s)
    && (forall w | w in s.workers :: Agrees(s.workers[w].call, terms))
    && TablesAgree(s.db, s.overwritten, terms)
    && s.overwritten <= terms.Keys
  }

  ghost predicate TablesAgree(db: Db, overwritten: set<Claim>, terms: map<Claim, Call>) {
    RowsAgree(db, terms) && StatusesAgree(db, overwritten, terms)
  }

  lemma OtherClaimOtherKey(terms: map<Claim, Call>, c: Claim, call: Call)
    requires WellKeyed(terms) && c in terms && c != ClaimOf(call)
    ensures ClaimOf(terms[c]) == c && KeyOf(terms[c]) != KeyOf(call)
  {
    assert KeyOf(terms[c]).claim == c;
  }

  lemma LockKeepsRows(db: Db, terms: map<Claim, Call>, call: Call)
    requires Agrees(call, terms) && PreGateway(db, call).Locked? && RowsAgree(db, terms)
    ensures RowsAgree(PreGateway(db, call).db, terms)
  {}

  lemma LockKeepsStatuses(db: Db, overwritten: set<Claim>, terms: map<Claim, Call>, call: Call)
    requires WellKeyed(terms) && Agrees(call, terms) && PreGateway(db, call).Locked?
    requires StatusesAgree(db, overwritten, terms)
    ensures StatusesAgree(PreGateway(db, call).db, overwritten, terms)
  {
    var t := PreGateway(db, call).db;
    forall c | c in terms ensures ClaimAgrees(t, overwritten, terms[c]) {
      assert ClaimAgrees(db, overwritten, terms[c]);
      if c != ClaimOf(call) {
        OtherClaimOtherKey(terms, c, call);
      }
    }
  }

  lemma ResolvedKeepsRows(db: Db, terms: map<Claim, Call>, call: Call)
    requires Agrees(call, terms) && KeyOf(call) in db.keys && RowsAgree(db, terms)
    ensures RowsAgree(Resolved(db, call), terms)
  {}

  /** What phase 2 writes when the rows are there. */
  lemma ResolvedReads(db: Db, call: Call, c: Claim, k: Key)
    requires KeyOf(call) in db.keys && ClaimOf(call) in db.payouts && ClaimOf(call) in db.claims
    ensures Succeeded(Resolved(db, call), k) <==> k == KeyOf(call) || Succeeded(db, k)
    ensures IsPaid(Resolved(db, call), c) <==> c == ClaimOf(call) || IsPaid(db, c)
    ensures IsApproved(Resolved(db, call), c) <==> c == ClaimOf(call) || IsApproved(db, c)
  {}

  lemma ResolvedKeepsStatuses(db: Db, overwritten: set<Claim>, terms: map<Claim, Call>, call: Call)
    requires WellKeyed(terms) && Agrees(call, terms)
    requires KeyOf(call) in db.keys && !Succeeded(db, KeyOf(call))
    requires ClaimOf(call) in db.payouts && ClaimOf(call) in db.claims
    requires StatusesAgree(db, overwritten, terms)
    ensures StatusesAgree(Resolved(db, call), overwritten, terms)
  {
    var t := Resolved(db, call);
    forall c | c in terms ensures ClaimAgrees(t, overwritten, terms[c]) {
      assert ClaimAgrees(db, overwritten, terms[c]);
      ResolvedReads(db, call, c, KeyOf(terms[c]));
      if c != ClaimOf(call) {
        OtherClaimOtherKey(terms, c, call);
      }
    }
  }

  lemma KeyFailedKeepsRows(db: Db, terms: map<Claim, Call>, k: Key)
    requires RowsAgree(db, terms)
    ensures RowsAgree(SetKeyState(db, k, FAILED), terms)
  {}

  lemma KeyFailedKeepsStatuses(db: Db, overwritten: set<Claim>, terms: map<Claim, Call>, k: Key)
    requires !Succeeded(db, k) && StatusesAgree(db, overwritten, terms)
    ensures StatusesAgree(SetKeyState(db, k, FAILED), overwritten, terms)
  {
    var t := SetKeyState(db, k, FAILED);
    forall c | c in terms ensures ClaimAgrees(t, overwritten, terms[c]) {
      assert ClaimAgrees(db, overwritten, terms[c]);
    }
  }

  lemma RejectedKeepsRows(db: Db, terms: map<Claim, Call>, c: Claim)
    requires RowsAgree(db, terms)
    ensures RowsAgree(SetPayoutStatus(db, c, Rejected), terms)
  {}

  lemma RejectedKeepsStatuses(db: Db, overwritten: set<Claim>, terms: map<Claim, Call>, c: Claim)
    requires WellKeyed(terms) && StatusesAgree(db, overwritten, terms)
    ensures StatusesAgree(SetPayoutStatus(db, c, Rejected),
                          if IsApproved(db, c) then overwritten + {c} else overwritten, terms)
  {
    var t := SetPayoutStatus(db, c, Rejected);
    var o := if IsApproved(db, c) then overwritten + {c} else overwritten;
    forall d | d in terms ensures ClaimAgrees(t, o, terms[d]) {
      assert ClaimAgrees(db, overwritten, terms[d]);
    }
  }

  lemma StartKeepsTables(s: State, terms: map<Claim, Call>, w: nat, call: Call)
    requires WellKeyed(terms) && TablesAgree(s.db, s.overwritten, terms) && Agrees(call, terms)
    ensures var t := Next(s, Start(w, call)); TablesAgree(t.db, t.overwritten, terms)
  {
    if w !in s.workers && PreGateway(s.db, call).Locked? {
      LockKeepsRows(s.db, terms, call);
      LockKeepsStatuses(s.db, s.overwritten, terms, call);
    }
  }

  lemma ResolveKeepsTables(s: State, terms: map<Claim, Call>, w: nat)
    requires WellKeyed(terms) && Books(s, terms)
    ensures var t := Next(s, Resolve(w)); TablesAgree(t.db, t.overwritten, terms)
  {
    if Alive(s, w, Settled) {
      var call := s.workers[w].call;
      assert KeyOf(call) in s.db.keys && KeyOf(call).claim == ClaimOf(call);
      ResolvedKeepsRows(s.db, terms, call);
      ResolvedKeepsStatuses(s.db, s.overwritten, terms, call);
    }
  }

  lemma KeyFailureKeepsTables(s: State, terms: map<Claim, Call>, w: nat, written: bool)
    requires Books(s, terms)
    ensures var t := Next(s, MarkKeyFailed(w, written)); TablesAgree(t.db, t.overwritten, terms)
  {
    if Alive(s, w, Failing) {
      var k := KeyOf(s.workers[w].call);
      assert !Succeeded(s.db, k);
      KeyFailedKeepsRows(s.db, terms, k);
      KeyFailedKeepsStatuses(s.db, s.overwritten, terms, k);
    }
  }

  lemma RejectionKeepsTables(s: State, terms: map<Claim, Call>, w: nat, written: bool)
    requires WellKeyed(terms) && TablesAgree(s.db, s.overwritten, terms)
    ensures var t := Next(s, MarkRejected(w, written)); TablesAgree(t.db, t.overwritten, terms)
  {
    if Alive(s, w, Rejecting) {
      var c := ClaimOf(s.workers[w].call);
      RejectedKeepsRows(s.db, terms, c);
      RejectedKeepsStatuses(s.db, s.overwritten, terms, c);
    }
  }

  lemma OtherStepsKeepTables(s: State, step: Step)
    requires !step.Start? && !step.Resolve? && !step.MarkKeyFailed? && !step.MarkRejected?
    ensures Next(s, step).db == s.db && Next(s, step).overwritten == s.overwritten
  {}

  lemma NextKeepsTables(s: State, terms: map<Claim, Call>, step: Step)
    requires WellKeyed(terms) && Books(s, terms)
    requires step.Start? ==> Agrees(step.call, terms)
    ensures TablesAgree(Next(s, step).db, Next(s, step).overwritten, terms)
  {
    match step
    case Start(w, call) => StartKeepsTables(s, terms, w, call);
    case Resolve(w) => ResolveKeepsTables(s, terms, w);
    case MarkKeyFailed(w, written) => KeyFailureKeepsTables(s, terms, w, written);
    case MarkRejected(w, written) => RejectionKeepsTables(s, terms, w, written);
    case _ => OtherStepsKeepTables(s, step);
  }

  lemma OverwrittenStep(s: State, step: Step, c: Claim)
    ensures c in Next(s, step).overwritten <==> c in s.overwritten || LateRejection(s, step, c)
  {}

  lemma CallsKeepTerms(s: State, terms: map<Claim, Call>, step: Step)
    requires forall w | w in s.workers :: Agrees(s.workers[w].call, terms)
    requires step.Start? ==> Agrees(step.call, terms)
    ensures forall w | w in Next(s, step).workers :: Agrees(Next(s, step).workers[w].call, terms)
  {
    CallsComeFromStart(s, step);
  }

  lemma NextKeepsBooks(s: State, terms: map<Claim, Call>, step: Step)
    requires WellKeyed(terms) && Books(s, terms)
    requires step.Start? ==> Agrees(step.call, terms)
    ensures Books(Next(s, step), terms)
  {
    NextKeepsSafe(s, step);
    NextKeepsTables(s, terms, step);
    CallsKeepTerms(s, terms, step);
    forall c | c in Next(s, step).overwritten ensures c in terms {
      OverwrittenStep(s, step, c);
    }
  }

  ghost predicate WellKeyed(terms: map<Claim, Call>) {
    forall c | c in terms :: ClaimOf(terms[c]) == c
  }

  lemma {:induction false} EveryRunKeepsBooks(init: State, steps: seq<Step>, terms: map<Claim, Call>)
    requires Initial(init) && WellKeyed(terms) && Follows(steps, terms)
    ensures Books(After(init, steps), terms)
  {
    if steps == [] {
      EveryInterleavingIsSafe(init, []);
    } else {
      EveryRunKeepsBooks(init, steps[..|steps| - 1], terms);
      NextKeepsBooks(After(init, steps[..|steps| - 1]), terms, steps[|steps| - 1]);
    }
  }

  /** The key of a claim is SUCCESS exactly when its claim case is PAID, and its payout
      row is APPROVED exactly when moreover no late rejection overwrote it. This holds
      in every reachable state, quiescent or not, crashed workers or not. */
  lemma {:induction false} KeyClaimAndPayoutAgree(init: State, steps: seq<Step>, terms: map<Claim, Call>, c: Claim)
    requires Initial(init) && WellKeyed(terms) && Follows(steps, terms)
    ensures var s := After(init, steps);
            && (IsPaid(s.db, c) <==> exists k | k in s.db.keys :: k.claim == c && Succeeded(s.db, k))
            && (IsApproved(s.db, c) <==> IsPaid(s.db, c) && c !in s.overwritten)
  {
    EveryRunKeepsBooks(init, steps, terms);
    var s := After(init, steps);
    if c in terms {
      assert ClaimAgrees(s.db, s.overwritten, terms[c]);
    }
    if IsPaid(s.db, c) {
      assert KeyOf(terms[c]) in s.db.keys && KeyOf(terms[c]).claim == c;
    }
    if IsApproved(s.db, c) {
      assert c in terms;
    }
  }

  // ---- Late rejections ----

  /** The failure path writes REJECTED over a row that another call has approved. */
  predicate LateRejection(s: State, step: Step, c: Claim) {
    && step.MarkRejected? && step.written
    && Alive(s, step.w, Rejecting) && ClaimOf(s.workers[step.w].call) == c
    && IsApproved(s.db, c)
  }

  ghost predicate LateRejectionAt(init: State, steps: seq<Step>, i: nat, c: Claim)
    requires i < |steps|
  {
    LateRejection(After(init, steps[..i]), steps[i], c)
  }

  ghost predicate LateRejectedIn(init: State, steps: seq<Step>, c: Claim) {
    exists i: nat | i < |steps| :: LateRejectionAt(init, steps, i, c)
  }

  lemma LateRejectedSnoc(init: State, steps: seq<Step>, c: Claim)
    requires steps != []
    ensures var front := steps[..|steps| - 1];
            LateRejectedIn(init, steps, c)
            <==> LateRejectedIn(init, front, c) || LateRejection(After(init, front), steps[|steps| - 1], c)
  {
    var last := |steps| - 1;
    var front := steps[..last];
    forall i: nat | i < last ensures LateRejectionAt(init, front, i, c) == LateRejectionAt(init, steps, i, c) {
      assert front[..i] == steps[..i];
    }
    assert LateRejectionAt(init, steps, last, c) <==> LateRejection(After(init, front), steps[last], c);
    if i: nat :| i < |steps| && LateRejectionAt(init, steps, i, c) {
      assert i == last || LateRejectionAt(init, front, i, c);
    }
    if i: nat :| i < last && LateRejectionAt(init, front, i, c) {
      assert LateRejectionAt(init, steps, i, c);
    }
  }

  lemma {:induction false} OverwrittenMeansLateRejection(init: State, steps: seq<Step>, c: Claim)
    requires Initial(init)
    ensures c in After(init, steps).overwritten <==> LateRejectedIn(init, steps, c)
  {
    if steps != [] {
      var front := steps[..|steps| - 1];
      OverwrittenMeansLateRejection(init, front, c);
      OverwrittenStep(After(init, front), steps[|steps| - 1], c);
      LateRejectedSnoc(init, steps, c);
    }
  }

  /** Payout row and claim case agree on every claim exactly when no step of the run
      wrote REJECTED over an APPROVED row. */
  lemma BooksAgreeIffNoLateRejection(init: State, steps: seq<Step>, terms: map<Claim, Call>)
    requires Initial(init) && WellKeyed(terms) && Follows(steps, terms)
    ensures (forall c :: IsApproved(After(init, steps).db, c) <==> IsPaid(After(init, steps).db, c))
            <==> (forall i: nat, c | i < |steps| :: !LateRejectionAt(init, steps, i, c))
  {
    var s := After(init, steps);
    EveryRunKeepsBooks(init, steps, terms);
    forall c ensures (IsApproved(s.db, c) <==> IsPaid(s.db, c)) == (c !in s.overwritten) {
      KeyClaimAndPayoutAgree(init, steps, terms, c);
      if c in s.overwritten {
        assert ClaimAgrees(s.db, s.overwritten, terms[c]);
      }
    }
    if i: nat, c :| i < |steps| && LateRejectionAt(init, steps, i, c) {
      OverwrittenMeansLateRejection(init, steps, c);
    } else if c :| c in s.overwritten {
      OverwrittenMeansLateRejection(init, steps, c);
    }
  }

  /** Two overlapping calls of one claim, the first refused by the gateway, end with the
      key SUCCESS, the claim PAID and the payout REJECTED. */
  lemma LateRejectionHappens(init: State, call: Call) returns (steps: seq<Step>)
    requires Initial(init)
    requires call.policyId in init.db.owners && init.db.owners[call.policyId] == call.userId
    requires Rupees(call) <= init.funds.pool
    ensures var s := After(init, steps);
            && s.workers == map[]
            && Succeeded(s.db, KeyOf(call)) && IsPaid(s.db, ClaimOf(call)) && !IsApproved(s.db, ClaimOf(call))
  {
    steps := [Start(0, call), Gateway(0, false), MarkKeyFailed(0, true), Start(1, call), Gateway(1, true),
              Resolve(1), MarkRejected(0, true)];
    var s3 := Next(Next(Next(init, Start(0, call)), Gateway(0, false)), MarkKeyFailed(0, true));
    FailedAtGateway(init, call);
    PaidUpTo(s3, 1, call);
    var s5 := Next(Next(s3, Start(1, call)), Gateway(1, true));
    ResolvedThenRejected(s5, call);
    AfterFive(init, steps[..5]);
    AfterTwo(init, steps);
    assert steps[..5] == [steps[0], steps[1], steps[2], steps[3], steps[4]];
  }

  lemma FailedAtGateway(init: State, call: Call)
    requires Initial(init)
    requires call.policyId in init.db.owners && init.db.owners[call.policyId] == call.userId
    ensures var t := Next(Next(Next(init, Start(0, call)), Gateway(0, false)), MarkKeyFailed(0, true));
            && t.workers == map[0 := Worker(call, Rejecting, false)]
            && t.db.owners == init.db.owners && t.funds == init.funds
            && KeyOf(call) in t.db.keys && t.db.keys[KeyOf(call)].state == FAILED
            && ClaimOf(call) in t.db.payouts && ClaimOf(call) in t.db.claims
            && PreGateway(t.db, call).Locked?
  {
    var t1 := Next(init, Start(0, call));
    assert t1.workers == map[0 := Worker(call, AtGateway, false)];
    var t2 := Next(t1, Gateway(0, false));
    assert t2.workers == map[0 := Worker(call, Failing, false)];
    var t3 := Next(t2, MarkKeyFailed(0, true));
    assert t3.workers == map[0 := Worker(call, Rejecting, false)];
  }

  lemma ResolvedThenRejected(s: State, call: Call)
    requires s.workers == map[0 := Worker(call, Rejecting, false), 1 := Worker(call, Settled, false)]
    requires KeyOf(call) in s.db.keys && ClaimOf(call) in s.db.payouts && ClaimOf(call) in s.db.claims
    ensures var t := Next(Next(s, Resolve(1)), MarkRejected(0, true));
            && t.workers == map[]
            && Succeeded(t.db, KeyOf(call)) && IsPaid(t.db, ClaimOf(call)) && !IsApproved(t.db, ClaimOf(call))
  {
    var t1 := Next(s, Resolve(1));
    assert t1.workers == map[0 := Worker(call, Rejecting, false)];
    var t2 := Next(t1, MarkRejected(0, true));
    assert t2.workers == map[];
  }

  /** A caller that never starts a claim while another call of it is unfinished. */
  ghost predicate OneCallPerClaim(init: State, steps: seq<Step>) {
    forall i | 0 <= i < |steps| && steps[i].Start? ::
      forall w | w in After(init, steps[..i]).workers ::
        ClaimOf(After(init, steps[..i]).workers[w].call) != ClaimOf(steps[i].call)
  }

  ghost predicate Solo(s: State) {
    && (forall v, w | v in s.workers && w in s.workers
                      && ClaimOf(s.workers[v].call) == ClaimOf(s.workers[w].call) :: v == w)
    && (forall w | w in s.workers :: !Succeeded(s.db, KeyOf(s.workers[w].call)))
    && s.overwritten == {}
  }

  lemma CallsComeFromStart(s: State, step: Step)
    ensures forall w | w in Next(s, step).workers ::
              var call := Next(s, step).workers[w].call;
              || (w in s.workers && s.workers[w].call == call)
              || (step.Start? && step.w == w && step.call == call && PreGateway(s.db, call).Locked?)
  {}

  lemma LockSucceedsNothing(db: Db, call: Call, k: Key)
    requires PreGateway(db, call).Locked? && Succeeded(PreGateway(db, call).db, k)
    ensures Succeeded(db, k)
  {}

  lemma ResolvedSucceedsOwn(db: Db, call: Call, k: Key)
    requires Succeeded(Resolved(db, call), k) && !Succeeded(db, k)
    ensures k == KeyOf(call)
  {
    var others := SetClaimStatus(SetPayoutStatus(db, ClaimOf(call), Approved), ClaimOf(call), ClaimPaid);
    assert others.keys == db.keys;
  }

  lemma OthersSucceedNothing(s: State, step: Step, k: Key)
    requires !step.Resolve? && Succeeded(Next(s, step).db, k)
    ensures Succeeded(s.db, k)
  {
    match step
    case Start(w, call) =>
      if w !in s.workers && PreGateway(s.db, call).Locked? {
        LockSucceedsNothing(s.db, call, k);
      }
    case MarkKeyFailed(w, written) =>
    case MarkRejected(w, written) =>
    case _ => OtherStepsKeepTables(s, step);
  }

  lemma OnlyResolveSucceeds(s: State, step: Step, k: Key)
    requires Succeeded(Next(s, step).db, k) && !Succeeded(s.db, k)
    ensures step.Resolve? && step.w in s.workers && KeyOf(s.workers[step.w].call) == k
    ensures step.w !in Next(s, step).workers
  {
    if step.Resolve? {
      ResolvedSucceedsOwn(s.db, s.workers[step.w].call, k);
    } else {
      OthersSucceedNothing(s, step, k);
    }
  }

  lemma NextKeepsSolo(s: State, terms: map<Claim, Call>, step: Step)
    requires WellKeyed(terms) && Books(s, terms) && Solo(s)
    requires step.Start? ==> Agrees(step.call, terms)
    requires step.Start? ==> forall w | w in s.workers :: ClaimOf(s.workers[w].call) != ClaimOf(step.call)
    ensures Solo(Next(s, step))
  {
    var t := Next(s, step);
    CallsComeFromStart(s, step);
    forall w | w in t.workers ensures !Succeeded(t.db, KeyOf(t.workers[w].call)) {
      var k := KeyOf(t.workers[w].call);
      assert !Succeeded(s.db, k);
      if Succeeded(t.db, k) {
        OnlyResolveSucceeds(s, step, k);
      }
    }
    NothingOverwritten(s, terms, step);
  }

  lemma NothingOverwritten(s: State, terms: map<Claim, Call>, step: Step)
    requires Books(s, terms) && Solo(s)
    ensures Next(s, step).overwritten == {}
  {
    if step.MarkRejected? && Alive(s, step.w, Rejecting) {
      assert ClaimAgrees(s.db, s.overwritten, s.workers[step.w].call);
    }
  }

  /** Calls of one claim that do not overlap keep payout rows and claim cases together. */
  lemma {:induction false} OneCallPerClaimKeepsBooksTogether(init: State, steps: seq<Step>, terms: map<Claim, Call>)
    requires Initial(init) && WellKeyed(terms) && Follows(steps, terms) && OneCallPerClaim(init, steps)
    ensures Solo(After(init, steps))
    ensures forall c :: IsApproved(After(init, steps).db, c) <==> IsPaid(After(init, steps).db, c)
  {
    if steps != [] {
      var front := steps[..|steps| - 1];
      forall i | 0 <= i < |front| ensures front[..i] == steps[..i] {}
      OneCallPerClaimKeepsBooksTogether(init, front, terms);
      EveryRunKeepsBooks(init, front, terms);
      NextKeepsSolo(After(init, front), terms, steps[|steps| - 1]);
    }
    forall c ensures IsApproved(After(init, steps).db, c) <==> IsPaid(After(init, steps).db, c) {
      KeyClaimAndPayoutAgree(init, steps, terms, c);
    }
  }
}
