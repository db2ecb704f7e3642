/** What ties every payout request to the ledger lock that funds it. */
module PayoutInvariants {
  import opened Wrappers
  import opened Sums
  import opened Ledgers
  import opened LedgerInvariants
  import opened Payouts

  predicate InFlight(s: Status) {
    s == PendingReview || s == Approved
  }

  function InFlightAt(ps: seq<Payout>, u: UserId): int -> int {
    i => if 0 <= i < |ps| && ps[i].user == u && InFlight(ps[i].status) then ps[i].amount else 0
  }

  function PaidAt(ps: seq<Payout>, u: UserId): int -> int {
    i => if 0 <= i < |ps| && ps[i].user == u && ps[i].status == Paid then ps[i].amount else 0
  }

  /** Cash times rate: what a paid request was worth, in hundredths of a point. */
  function PaidValueAt(ps: seq<Payout>, u: UserId): int -> int {
    i => if 0 <= i < |ps| && ps[i].user == u && ps[i].status == Paid then ps[i].cash * ps[i].rate else 0
  }

  function PaidRateAt(ps: seq<Payout>, u: UserId): int -> int {
    i => if 0 <= i < |ps| && ps[i].user == u && ps[i].status == Paid then ps[i].rate else 0
  }

  /** Request p and its lock row name each other, and the lock's fate is the request's status. */
  ghost predicate Funded(rows: seq<Row>, ps: seq<Payout>, p: nat)
    requires p < |ps|
  {
    var x := ps[p];
    && x.lockId < |rows|
    && rows[x.lockId].kind.PayoutLock? && rows[x.lockId].source == FromPayout(p)
    && rows[x.lockId].user == x.user && rows[x.lockId].locked == x.amount
    && (ActedOn(rows, x.lockId, PayoutSettle) <==> x.status == Paid)
    && (ActedOn(rows, x.lockId, PayoutRefund) <==> x.status == Rejected || x.status == Failed)
    && x.cash == ToCashMinor(x.amount, x.rate)
  }

  ghost predicate LockIsRequested(rows: seq<Row>, ps: seq<Payout>, j: nat)
    requires j < |rows|
  {
    rows[j].kind.PayoutLock? ==>
      rows[j].source.FromPayout? && rows[j].source.payout < |ps| && ps[rows[j].source.payout].lockId == j
  }

  ghost predicate LocksAreRequested(rows: seq<Row>, ps: seq<Payout>) {
    forall j | 0 <= j < |rows| :: LockIsRequested(rows, ps, j)
  }

  ghost predicate PayoutSums(rows: seq<Row>, ps: seq<Payout>, u: UserId) {
    && SumTo(|ps|, InFlightAt(ps, u)) == OpenLocks(rows, u)
    && SumTo(|ps|, PaidAt(ps, u)) == Total(rows, u, WithdrawnOf)
  }

  ghost predicate PayoutInv(rows: seq<Row>, ps: seq<Payout>) {
    && (forall p | 0 <= p < |ps| :: Funded(rows, ps, p))
    && LocksAreRequested(rows, ps)
    && (forall u: UserId :: PayoutSums(rows, ps, u))
  }

  predicate TouchesLocks(kind: Kind) {
    kind.PayoutLock? || kind.PayoutSettle? || kind.PayoutRefund?
  }

  lemma LocksStayRequested(rows: seq<Row>, r: Row, ps: seq<Payout>, ps': seq<Payout>)
    requires LocksAreRequested(rows, ps) && |ps| <= |ps'| && forall p | 0 <= p < |ps| :: ps'[p].lockId == ps[p].lockId
    requires r.kind.PayoutLock? ==>
               r.source.FromPayout? && r.source.payout < |ps'| && ps'[r.source.payout].lockId == |rows|
    ensures LocksAreRequested(rows + [r], ps')
  {
    forall j | 0 <= j < |rows + [r]| ensures LockIsRequested(rows + [r], ps', j) {
      if j < |rows| {
        assert LockIsRequested(rows, ps, j);
      }
    }
  }

  lemma OpenLocksMove(l: Ledger, r: Row, u: UserId)
    requires Inv(l) && Admissible(l, r)
    ensures OpenLocks(l.rows + [r], u) == OpenLocks(l.rows, u) + (if r.user == u then r.locked else 0)
  {
    if r.user == u {
      StatusSumsMove(l, r);
    } else {
      StatusSumsFrame(l, r, u);
    }
  }

  /** A movement that is no lock, settle or refund changes nothing about payouts. */
  lemma OtherMovesKeepPayouts(l: Ledger, r: Row, ps: seq<Payout>)
    requires Inv(l) && Admissible(l, r) && !TouchesLocks(r.kind) && PayoutInv(l.rows, ps)
    ensures PayoutInv(l.rows + [r], ps)
  {
    LocksStayRequested(l.rows, r, ps, ps);
    forall p | 0 <= p < |ps| ensures Funded(l.rows + [r], ps, p) {
      assert Funded(l.rows, ps, p);
      ActedOnAppend(l.rows, r, ps[p].lockId, PayoutSettle);
      ActedOnAppend(l.rows, r, ps[p].lockId, PayoutRefund);
    }
    forall u: UserId ensures PayoutSums(l.rows + [r], ps, u) {
      assert PayoutSums(l.rows, ps, u);
      assert WellFormed(l.rows + [r], |l.rows|);
      OpenLocksMove(l, r, u);
      TotalAppend(l.rows, r, u, WithdrawnOf);
    }
  }

  /** A fresh lock and the request that carries it. */
  ghost predicate Requests(rows: seq<Row>, r: Row, ps: seq<Payout>, x: Payout) {
    && r.kind.PayoutLock? && r.source == FromPayout(|ps|) && r.actsOn == None
    && x.user == r.user && x.amount == r.locked && x.lockId == |rows| && x.status == PendingReview
    && x.cash == ToCashMinor(x.amount, x.rate)
  }

  lemma FundedByFreshLock(rows: seq<Row>, r: Row, ps: seq<Payout>, x: Payout, p: nat)
    requires Structured(rows) && p <= |ps| && Requests(rows, r, ps, x)
    requires p < |ps| ==> Funded(rows, ps, p)
    ensures Funded(rows + [r], ps + [x], p)
  {
    var id := (ps + [x])[p].lockId;
    ActedOnAppend(rows, r, id, PayoutSettle);
    ActedOnAppend(rows, r, id, PayoutRefund);
    NothingActsOnFresh(rows, PayoutSettle);
    NothingActsOnFresh(rows, PayoutRefund);
  }

  /** What any admissible movement does to a user's open locks. */
  ghost predicate LocksMove(rows: seq<Row>, r: Row, u: UserId) {
    OpenLocks(rows + [r], u) == OpenLocks(rows, u) + (if r.user == u then r.locked else 0)
  }

  lemma SumsWithFreshLock(rows: seq<Row>, r: Row, ps: seq<Payout>, x: Payout, u: UserId)
    requires LocksMove(rows, r, u) && Requests(rows, r, ps, x) && PayoutSums(rows, ps, u)
    ensures PayoutSums(rows + [r], ps + [x], u)
  {
    TotalAppend(rows, r, u, WithdrawnOf);
    SumAgrees(|ps|, InFlightAt(ps, u), InFlightAt(ps + [x], u));
    SumAgrees(|ps|, PaidAt(ps, u), PaidAt(ps + [x], u));
  }

  lemma SubmitKeepsPayouts(l: Ledger, ps: seq<Payout>, s: Submission, policy: Policy, now: int)
    requires Inv(l) && PayoutInv(l.rows, ps) && Submit(l, ps, s, policy, now).Ok?
    ensures var (l', ps') := Submit(l, ps, s, policy, now).value;
            && l' == Step(l, DoLock(s.user, s.amount, |ps|), now)
            && PayoutInv(l'.rows, ps')
  {
    var (l', ps') := Submit(l, ps, s, policy, now).value;
    LockWrites(l, s.user, s.amount, |ps|, now);
    var r, x := l'.rows[|l.rows|], ps'[|ps|];
    LocksStayRequested(l.rows, r, ps, ps');
    forall p | 0 <= p < |ps'| ensures Funded(l.rows + [r], ps + [x], p) {
      FundedByFreshLock(l.rows, r, ps, x, p);
    }
    forall u: UserId ensures PayoutSums(l.rows + [r], ps + [x], u) {
      OpenLocksMove(l, r, u);
      SumsWithFreshLock(l.rows, r, ps, x, u);
    }
  }

  /** Under the invariant a permitted transition is never refused by the ledger. */
  lemma TransitionSucceeds(l: Ledger, ps: seq<Payout>, id: nat, to: Status, review: Review, now: int)
    requires Inv(l) && PayoutInv(l.rows, ps) && id < |ps|
    ensures Transition(l, ps, id, ps[id].status, to, review, now).Ok? <==> CanTransition(ps[id].status, to)
  {
    assert Funded(l.rows, ps, id);
  }

  /** A resolution row for request id, and the request's new status. */
  ghost predicate Resolves(rows: seq<Row>, r: Row, ps: seq<Payout>, id: nat, x: Payout) {
    && id < |ps| && InFlight(ps[id].status) && Funded(rows, ps, id)
    && r.user == ps[id].user && r.actsOn == Some(ps[id].lockId) && r.locked == -ps[id].amount
    && ((r.kind.PayoutSettle? && r.amount == r.locked && x.status == Paid)
        || (r.kind.PayoutRefund? && (x.status == Rejected || x.status == Failed)))
    && x.user == ps[id].user && x.amount == ps[id].amount && x.lockId == ps[id].lockId
    && x.cash == ps[id].cash && x.rate == ps[id].rate
  }

  lemma FundedAfterResolution(rows: seq<Row>, r: Row, ps: seq<Payout>, id: nat, x: Payout, p: nat)
    requires Resolves(rows, r, ps, id, x) && p < |ps| && Funded(rows, ps, p)
    ensures Funded(rows + [r], ps[id := x], p)
  {
    ActedOnAppend(rows, r, ps[p].lockId, PayoutSettle);
    ActedOnAppend(rows, r, ps[p].lockId, PayoutRefund);
  }

  lemma SumsAfterResolution(rows: seq<Row>, r: Row, ps: seq<Payout>, id: nat, x: Payout, u: UserId)
    requires LocksMove(rows, r, u) && Resolves(rows, r, ps, id, x) && PayoutSums(rows, ps, u)
    ensures PayoutSums(rows + [r], ps[id := x], u)
  {
    var ps' := ps[id := x];
    TotalAppend(rows, r, u, WithdrawnOf);
    SumDiffersAt(|ps|, InFlightAt(ps, u), InFlightAt(ps', u), id);
    SumDiffersAt(|ps|, PaidAt(ps, u), PaidAt(ps', u), id);
  }

  lemma ResolutionKeepsPayouts(l: Ledger, ps: seq<Payout>, id: nat, settling: bool, x: Payout, now: int)
    requires Inv(l) && PayoutInv(l.rows, ps) && id < |ps|
    requires ResolveLock(l, ps[id].lockId, settling, now).Ok?
    requires var l' := ResolveLock(l, ps[id].lockId, settling, now).value;
             |l'.rows| > |l.rows| ==> Resolves(l.rows, l'.rows[|l.rows|], ps, id, x)
    ensures PayoutInv(ResolveLock(l, ps[id].lockId, settling, now).value.rows, ps[id := x])
  {
    var l' := ResolveLock(l, ps[id].lockId, settling, now).value;
    ResolveLockWrites(l, ps[id].lockId, settling, now);
    var r, ps' := l'.rows[|l.rows|], ps[id := x];
    LocksStayRequested(l.rows, r, ps, ps');
    forall p | 0 <= p < |ps'| ensures Funded(l'.rows, ps', p) {
      FundedAfterResolution(l.rows, r, ps, id, x, p);
    }
    forall u: UserId ensures PayoutSums(l'.rows, ps', u) {
      OpenLocksMove(l, r, u);
      SumsAfterResolution(l.rows, r, ps, id, x, u);
    }
  }

  /** Approval moves no money. */
  lemma ApprovalKeepsPayouts(rows: seq<Row>, ps: seq<Payout>, id: nat, x: Payout)
    requires PayoutInv(rows, ps) && id < |ps| && ps[id].status == PendingReview
    requires x == ps[id].(status := Approved, reviewedBy := x.reviewedBy)
    ensures PayoutInv(rows, ps[id := x])
  {
    var ps' := ps[id := x];
    forall j | 0 <= j < |rows| ensures LockIsRequested(rows, ps', j) {
      assert LockIsRequested(rows, ps, j);
    }
    forall p | 0 <= p < |ps'| ensures Funded(rows, ps', p) {
      assert Funded(rows, ps, p);
    }
    forall u: UserId ensures PayoutSums(rows, ps', u) {
      assert PayoutSums(rows, ps, u);
      SumAgrees(|ps|, InFlightAt(ps, u), InFlightAt(ps', u));
      SumAgrees(|ps|, PaidAt(ps, u), PaidAt(ps', u));
    }
  }

  lemma TransitionMoves(l: Ledger, ps: seq<Payout>, id: nat, to: Status, review: Review, now: int)
    requires id < |ps| && Transition(l, ps, id, ps[id].status, to, review, now).Ok?
    ensures var (l', ps') := Transition(l, ps, id, ps[id].status, to, review, now).value;
            && ps' == ps[id := Reviewed(ps[id], to, review, now)]
            && if to == Approved then ps[id].status == PendingReview && l' == l
               else InFlight(ps[id].status) && (to == Paid || to == Rejected || to == Failed)
                    && ResolveLock(l, ps[id].lockId, to == Paid, now) == Ok(l')
  {
  }

  lemma TransitionKeepsPayouts(l: Ledger, ps: seq<Payout>, id: nat, to: Status, review: Review, now: int)
    requires Inv(l) && PayoutInv(l.rows, ps) && id < |ps|
    requires Transition(l, ps, id, ps[id].status, to, review, now).Ok?
    ensures var (l', ps') := Transition(l, ps, id, ps[id].status, to, review, now).value; PayoutInv(l'.rows, ps')
  {
    TransitionMoves(l, ps, id, to, review, now);
    var x := Reviewed(ps[id], to, review, now);
    if to == Approved {
      ApprovalKeepsPayouts(l.rows, ps, id, x);
    } else {
      ResolutionKeepsPayouts(l, ps, id, to == Paid, x, now);
    }
  }

  // --- What a caller can rely on --------------------------------------------

  /** The locked bucket is exactly the user's requests still waiting for money to move. */
  lemma LockedIsInFlight(l: Ledger, ps: seq<Payout>, u: UserId)
    requires Inv(l) && PayoutInv(l.rows, ps) && u in l.balances
    ensures l.balances[u].locked == SumTo(|ps|, InFlightAt(ps, u))
    ensures 0 <= l.balances[u].locked
    ensures l.balances[u].lifetime.withdrawn == SumTo(|ps|, PaidAt(ps, u))
  {
    assert PayoutSums(l.rows, ps, u) && AccountInv(l, u);
    AmountsArePositive(l, ps);
    SumBoundsTerm(|ps|, InFlightAt(ps, u), 0);
  }

  lemma AmountsArePositive(l: Ledger, ps: seq<Payout>)
    requires Inv(l) && PayoutInv(l.rows, ps)
    ensures forall p | 0 <= p < |ps| :: 0 < ps[p].amount && ps[p].cash == ToCashMinor(ps[p].amount, ps[p].rate)
  {
    forall p | 0 <= p < |ps| ensures 0 < ps[p].amount && ps[p].cash == ToCashMinor(ps[p].amount, ps[p].rate) {
      assert Funded(l.rows, ps, p);
      assert WellFormed(l.rows, ps[p].lockId);
    }
  }

  /** At most one row resolves a lock. */
  lemma ResolvedAtMostOnce(rows: seq<Row>, lock: nat)
    requires Structured(rows) && lock < |rows| && rows[lock].kind.PayoutLock?
    ensures forall i, j | 0 <= i < j < |rows| && rows[i].actsOn == Some(lock) :: rows[j].actsOn != Some(lock)
  {
    forall i | 0 <= i < |rows| && rows[i].actsOn == Some(lock) ensures !rows[i].kind.RewardMaturation? {
      assert WellFormed(rows, i);
    }
  }

  /**
   Each lock is resolved at most once, exactly when its request has ended, and settled exactly
   when it was paid; two requests never share a lock.
   */
  lemma LocksResolveOnce(l: Ledger, ps: seq<Payout>, p: nat)
    requires Structured(l.rows) && PayoutInv(l.rows, ps) && p < |ps|
    ensures Resolved(l.rows, ps[p].lockId) <==> IsTerminal(ps[p].status)
    ensures ActedOn(l.rows, ps[p].lockId, PayoutSettle) <==> ps[p].status == Paid
    ensures forall i, j | 0 <= i < j < |l.rows| && l.rows[i].actsOn == Some(ps[p].lockId) ::
              l.rows[j].actsOn != Some(ps[p].lockId)
    ensures forall q | 0 <= q < |ps| && q != p :: ps[q].lockId != ps[p].lockId
  {
    assert Funded(l.rows, ps, p);
    ResolvedAtMostOnce(l.rows, ps[p].lockId);
    forall q | 0 <= q < |ps| && q != p ensures ps[q].lockId != ps[p].lockId {
      assert Funded(l.rows, ps, q);
    }
  }

  /**
   With each paid request's own stored rate, what was paid out is the withdrawn points to within
   less than one minor unit per request, and never more.
   */
  lemma CashOutBound(l: Ledger, ps: seq<Payout>, u: UserId)
    requires Inv(l) && PayoutInv(l.rows, ps) && u in l.balances
    ensures var withdrawn, value := l.balances[u].lifetime.withdrawn, SumTo(|ps|, PaidValueAt(ps, u));
            && value <= 100 * withdrawn
            && 100 * withdrawn - SumTo(|ps|, PaidRateAt(ps, u)) <= value
            && ((exists p | 0 <= p < |ps| :: ps[p].user == u && ps[p].status == Paid) ==>
                  100 * withdrawn - SumTo(|ps|, PaidRateAt(ps, u)) < value)
  {
    LockedIsInFlight(l, ps, u);
    AmountsArePositive(l, ps);
    PaidValueBound(ps, u);
  }

  lemma PaidValueBound(ps: seq<Payout>, u: UserId)
    requires forall p | 0 <= p < |ps| :: ps[p].cash == ToCashMinor(ps[p].amount, ps[p].rate)
    ensures var paid, value := SumTo(|ps|, PaidAt(ps, u)), SumTo(|ps|, PaidValueAt(ps, u));
            && value <= 100 * paid <= value + SumTo(|ps|, PaidRateAt(ps, u))
            && ((exists p | 0 <= p < |ps| :: ps[p].user == u && ps[p].status == Paid) ==>
                  100 * paid < value + SumTo(|ps|, PaidRateAt(ps, u)))
  {
    var n := |ps|;
    var points := (i: int) => 100 * PaidAt(ps, u)(i);
    var topped := (i: int) => PaidValueAt(ps, u)(i) + PaidRateAt(ps, u)(i);
    SumScales(n, PaidAt(ps, u), points, 100);
    SumAdds(n, PaidValueAt(ps, u), PaidRateAt(ps, u), topped);
    forall i | 0 <= i < n
      ensures PaidValueAt(ps, u)(i) <= points(i) <= topped(i)
      ensures ps[i].user == u && ps[i].status == Paid ==> points(i) < topped(i)
    {
      CashIsRoundedDown(ps[i].amount, ps[i].rate);
    }
    SumMonotone(n, PaidValueAt(ps, u), points);
    SumMonotone(n, points, topped);
    if p :| 0 <= p < n && ps[p].user == u && ps[p].status == Paid {
      SumStrict(n, points, topped, p);
    }
  }
}
