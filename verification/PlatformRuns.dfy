/** Concrete histories: what the theorems allow does happen. */
module PlatformRuns {
  import opened Wrappers
  import opened Sets
  import opened Sums
  import opened Ledgers
  import opened LedgerInvariants
  import opened RewardAccountings
  import opened PostbackIntakes
  import opened Conversions
  import opened ConversionInvariants
  import opened PayoutInvariants
  import opened Platforms
  import opened PlatformInvariants
  import opened PlatformMovements
  import opened PlatformTheorems
  import opened PaymentTheorems
  import opened ReviewTheorems
  import P = Payouts
  import R = ChargebackRaces

  // --- The steps the runs are made of -----------------------------------------

  lemma Starts(es: seq<Event>, w: nat, i: nat)
    requires var p := Reached(es); w !in p.jobs && i < |p.books.archive| && p.books.archive[i].state == Received
    ensures var p := Reached(es); Reached(es + [StartJob(w, i)]) == p.(jobs := p.jobs[w := Loaded(i)])
  {
    Extend(es, StartJob(w, i));
  }

  lemma Arrives(es: seq<Event>, provider: nat, key: nat)
    requires Find(Reached(es).books.archive, provider, key).None?
    ensures var p := Reached(es);
            Reached(es + [Deliver(provider, key)])
            == p.(books := p.books.(archive := p.books.archive + [Fresh(provider, key)]),
                  delivered := p.delivered + multiset{(provider, key)})
  {
    Extend(es, Deliver(provider, key));
  }

  lemma Plans(es: seq<Event>, w: nat, reading: Reading, rates: Rates, active: bool, plan: Plan)
    requires var p := Reached(es);
             && w in p.jobs && p.jobs[w].Loaded? && p.jobs[w].postback < |p.books.archive|
             && Attribute(p.books.conversions, p.books.archive[p.jobs[w].postback].provider, reading, rates,
                          reading.Readable? && reading.click.user in p.books.ledger.balances, active, None) == Planned(plan)
    ensures var p := Reached(es);
            Reached(es + [AttributeJob(w, reading, rates, active, None)])
            == p.(jobs := p.jobs[w := Ready(p.jobs[w].postback, plan)])
  {
    Extend(es, AttributeJob(w, reading, rates, active, None));
  }

  lemma Stored(es: seq<Event>, w: nat, hold: nat, b: Books)
    requires var p := Reached(es);
             && w in p.jobs && p.jobs[w].Ready? && p.jobs[w].postback < |p.books.archive|
             && Persist(p.books, p.jobs[w].postback, p.jobs[w].plan, hold, p.clock) == Ok(b)
    ensures var p := Reached(es); Reached(es + [PersistJob(w, hold)]) == p.(books := b, jobs := p.jobs - {w})
  {
    Extend(es, PersistJob(w, hold));
  }

  // --- One conversion -----------------------------------------------------------

  const RATES := Rates(1, 100, "USD")
  const CLICK := Click(0, 7, 0)

  function Reported(payout: int, isReversal: bool): Parsed {
    Parsed(Confirmed, isReversal, payout, "USD")
  }

  function FirstPlan(payout: int, active: bool): Plan {
    Plan(CLICK, Reported(payout, false), PointsFor(payout, RATES), if active then Attributed else Held, None)
  }

  /** User 7 and one delivered postback. */
  lemma UpToDelivery() returns (es: seq<Event>)
    ensures Reached(es) == INITIAL.(books := Books(Ledger(map[7 := ZERO_BALANCE], []), [], [Fresh(0, 5)]),
                                    delivered := multiset{(0, 5)})
  {
    var none: seq<Event> := [];
    Extend(none, Register(7));
    es := none + [Register(7)];
    assert Reached(es) == INITIAL.(books := Books(Ledger(map[7 := ZERO_BALANCE], []), [], []));
    Arrives(es, 0, 5);
    es := es + [Deliver(0, 5)];
  }

  lemma UpToPlan(payout: int, active: bool) returns (es: seq<Event>)
    ensures Reached(es) == INITIAL.(books := Books(Ledger(map[7 := ZERO_BALANCE], []), [], [Fresh(0, 5)]),
                                    delivered := multiset{(0, 5)}, jobs := map[1 := Ready(0, FirstPlan(payout, active))])
  {
    es := UpToDelivery();
    Starts(es, 1, 0);
    es := es + [StartJob(1, 0)];
    Plans(es, 1, Readable(Reported(payout, false), CLICK), RATES, active, FirstPlan(payout, active));
    es := es + [AttributeJob(1, Readable(Reported(payout, false), CLICK), RATES, active, None)];
  }

  lemma PointsArePayout(payout: int)
    ensures PointsFor(payout, RATES) == payout
  {
  }

  function FirstRow(payout: int, active: bool): Conversion {
    Conversion(0, 7, 0, Original, if active then Credited else Held, payout, "USD", payout, None, false)
  }

  function FirstCredit(active: bool): Row {
    Row(7, ConversionCredit, 5, 5, 0, 0, FromConversion(0), None, if active then Some(0) else None, 0)
  }

  /** The first worker commits five points, whatever other workers hold. */
  lemma FirstCommit(es: seq<Event>, active: bool)
    requires var p := Reached(es);
             && p.clock == 0 && p.books == Books(Ledger(map[7 := ZERO_BALANCE], []), [], [Fresh(0, 5)])
             && 1 in p.jobs && p.jobs[1] == Ready(0, FirstPlan(5, active))
    ensures var p, p' := Reached(es), Reached(es + [PersistJob(1, 0)]);
            && p'.books.conversions == [FirstRow(5, active)]
            && p'.books.archive == [Marked(Fresh(0, 5), Processed)] && p'.jobs == p.jobs - {1}
            && p'.books.ledger.rows == [FirstCredit(active)] && 7 in p'.books.ledger.balances
  {
    PointsArePayout(5);
    var p, plan := Reached(es), FirstPlan(5, active);
    var credited := Ledgers.Credit(p.books.ledger, 7, ConversionCredit, 5, FromConversion(0),
                                   if active then Some(0) else None, 0).value;
    var b := Books(credited, [FirstRow(5, active)], [Marked(Fresh(0, 5), Processed)]);
    assert NewConversion(0, plan) == FirstRow(5, active);
    assert MarkReversed([] + [FirstRow(5, active)], None) == b.conversions;
    assert p.books.archive[0 := Marked(p.books.archive[0], Processed)] == b.archive;
    Stored(es, 1, 0, b);
  }

  /** A confirmed conversion worth five points: credited for an active account, held for any other. */
  lemma OneConversion(active: bool) returns (es: seq<Event>)
    ensures var p := Reached(es);
            && p.books.conversions == [FirstRow(5, active)]
            && p.books.archive == [Marked(Fresh(0, 5), Processed)] && p.jobs == map[]
            && p.books.ledger.rows == [FirstCredit(active)] && 7 in p.books.ledger.balances
  {
    es := UpToPlan(5, active);
    FirstCommit(es, active);
    es := es + [PersistJob(1, 0)];
    assert map[1 := Ready(0, FirstPlan(5, active))] - {1} == map[];
  }

  /**
   A second worker's failure overwrites PROCESSED: with two workers on one postback the state no
   longer tells whether a conversion exists.
   */
  lemma TwoWorkersCanHideAConversion() returns (es: seq<Event>)
    ensures var p := Reached(es);
            |p.books.archive| == 1 && p.books.archive[0].state == PostbackState.Failed && PostbackTaken(p.books.conversions, 0)
  {
    es := UpToPlan(5, true);
    Starts(es, 2, 0);
    es := es + [StartJob(2, 0)];
    FirstCommit(es, true);
    es := es + [PersistJob(1, 0)];
    var row := FirstRow(5, true);
    assert Reached(es).books.conversions[0] == row;
    Extend(es, BreakJob(2));
    es := es + [BreakJob(2)];
    Extend(es, MarkJob(2));
    es := es + [MarkJob(2)];
  }

  // --- Net points against standing points ---------------------------------------

  /**
   A confirmed conversion of an inactive account that a provider reports with a payout below zero is
   HELD with negative points and no credit: the user's net points are not their standing points.
   */
  lemma NegativePayoutStands() returns (es: seq<Event>)
    ensures var p := Reached(es);
            && p.books.conversions == [FirstRow(-5, false)] && p.books.ledger.rows == []
            && Net(p.books.ledger.rows, 7) != SumTo(|p.books.conversions|, PointsAt(p.books.conversions, 7))
  {
    es := UpToPlan(-5, false);
    PointsArePayout(-5);
    var p, plan := Reached(es), FirstPlan(-5, false);
    var b := Books(p.books.ledger, [FirstRow(-5, false)], [Marked(Fresh(0, 5), Processed)]);
    assert NewConversion(0, plan) == FirstRow(-5, false);
    assert MarkReversed([] + [FirstRow(-5, false)], None) == b.conversions;
    assert p.books.archive[0 := Marked(p.books.archive[0], Processed)] == b.archive;
    Stored(es, 1, 0, b);
    es := es + [PersistJob(1, 0)];
    assert NegativeStanding(Reached(es).books.conversions[0], 7);
    NetIsStandingPoints(es, 7);
  }

  // --- Chargebacks ----------------------------------------------------------------

  const CHARGEBACK := Plan(CLICK, Parsed(Confirmed, true, 5, "USD"), 5, Attributed, Some(0))

  lemma OnlyCandidate(c: Conversion)
    requires IsCandidate(c, 0, Reported(5, true))
    ensures Candidates([c], 0, Reported(5, true)) == [0]
  {
    assert [c][..0] == [];
  }

  /** A chargeback of the one stored conversion, planned by a worker whose job is loaded. */
  lemma PlansChargeback(es: seq<Event>, w: nat, i: nat)
    requires var p := Reached(es);
             && w in p.jobs && p.jobs[w] == Loaded(i) && i < |p.books.archive| && p.books.archive[i].provider == 0
             && |p.books.conversions| == 1 && IsCandidate(p.books.conversions[0], 0, Reported(5, true))
             && 7 in p.books.ledger.balances
    ensures var p := Reached(es);
            Reached(es + [AttributeJob(w, Readable(Reported(5, true), CLICK), RATES, true, None)])
            == p.(jobs := p.jobs[w := Ready(i, CHARGEBACK)])
  {
    var c := Reached(es).books.conversions[0];
    OnlyCandidate(c);
    assert Reached(es).books.conversions == [c];
    PointsArePayout(5);
    Plans(es, w, Readable(Reported(5, true), CLICK), RATES, true, CHARGEBACK);
  }

  /** The chargeback is delivered and two workers are on it. */
  lemma TwoLoadedChargebacks() returns (es: seq<Event>)
    ensures var p := Reached(es);
            && p.jobs == map[1 := Loaded(1), 2 := Loaded(1)]
            && p.books.conversions == [FirstRow(5, true)] && |p.books.archive| == 2 && p.books.archive[1].provider == 0
            && p.books.ledger.rows == [FirstCredit(true)] && 7 in p.books.ledger.balances
  {
    es := OneConversion(true);
    Arrives(es, 0, 6);
    es := es + [Deliver(0, 6)];
    Starts(es, 1, 1);
    es := es + [StartJob(1, 1)];
    Starts(es, 2, 1);
    es := es + [StartJob(2, 1)];
  }

  /** Both have planned it. */
  lemma TwoPlannedChargebacks() returns (es: seq<Event>)
    ensures var p := Reached(es);
            && p.jobs == map[1 := Ready(1, CHARGEBACK), 2 := Ready(1, CHARGEBACK)]
            && p.books.conversions == [FirstRow(5, true)] && |p.books.archive| == 2
            && p.books.ledger.rows == [FirstCredit(true)]
  {
    es := TwoLoadedChargebacks();
    var row := FirstRow(5, true);
    assert IsCandidate(row, 0, Reported(5, true));
    PlansChargeback(es, 1, 1);
    es := es + [AttributeJob(1, Readable(Reported(5, true), CLICK), RATES, true, None)];
    PlansChargeback(es, 2, 1);
    es := es + [AttributeJob(2, Readable(Reported(5, true), CLICK), RATES, true, None)];
  }

  /** The first worker's chargeback commits. */
  lemma WinnerCommits() returns (es: seq<Event>)
    ensures var p := Reached(es);
            && p.jobs == map[2 := Ready(1, CHARGEBACK)] && |p.books.archive| == 2
            && PostbackTaken(p.books.conversions, 1)
            && |p.books.conversions| == 2 && p.books.conversions[0].status == Reversed
            && FindBySource(p.books.ledger.rows, 0).Some?
  {
    es := TwoPlannedChargebacks();
    var p := Reached(es);
    ChargebackRefusedIff(es, 0, p.clock);
    var moved := ReverseRewardFor(p.books.ledger, 0, 1, p.clock).value;
    var b := Books(moved, MarkReversed(p.books.conversions + [NewConversion(1, CHARGEBACK)], Some(0)),
                   p.books.archive[1 := Marked(p.books.archive[1], Processed)]);
    assert !PostbackTaken(p.books.conversions, 1);
    assert Persist(p.books, 1, CHARGEBACK, 0, p.clock) == Ok(b);
    Stored(es, 1, 0, b);
    es := es + [PersistJob(1, 0)];
    OperationMoves(p.books.ledger, DoReverse(0, FromConversion(1)), p.clock);
    assert moved.rows[0] == FirstCredit(true);
    FindsTheFirst(moved.rows, 0, 0);
    assert b.conversions[1].postback == 1;
    assert map[1 := Ready(1, CHARGEBACK), 2 := Ready(1, CHARGEBACK)] - {1} == map[2 := Ready(1, CHARGEBACK)];
  }

  /** The race happens: the second worker's chargeback fails and hides the first one's. */
  lemma ChargebackRaceHappens() returns (es: seq<Event>)
    ensures var p := Reached(es);
            && 1 < |p.books.archive| && p.books.archive[1].state == PostbackState.Failed
            && PostbackTaken(p.books.conversions, 1)
  {
    var winner := WinnerCommits();
    ReversalRaceLoserOverwrites(winner, 2, 0);
    es := winner + [PersistJob(2, 0), MarkJob(2)];
  }

  /** Two deliveries report the one conversion reversed, and each has a worker. */
  lemma TwoReversalsLoaded() returns (es: seq<Event>)
    ensures var p := Reached(es);
            && p.jobs == map[1 := Loaded(1), 2 := Loaded(2)] && |p.books.archive| == 3
            && p.books.archive[1].provider == 0 && p.books.archive[2].provider == 0
            && p.books.conversions == [FirstRow(5, true)] && p.books.ledger.rows == [FirstCredit(true)]
            && 7 in p.books.ledger.balances
  {
    es := OneConversion(true);
    Arrives(es, 0, 6);
    es := es + [Deliver(0, 6)];
    Arrives(es, 0, 7);
    es := es + [Deliver(0, 7)];
    Starts(es, 1, 1);
    es := es + [StartJob(1, 1)];
    Starts(es, 2, 2);
    es := es + [StartJob(2, 2)];
  }

  /** Both plan it. */
  lemma TwoReversalsPlanned() returns (es: seq<Event>)
    ensures var p := Reached(es);
            && p.jobs == map[1 := Ready(1, CHARGEBACK), 2 := Ready(2, CHARGEBACK)] && |p.books.archive| == 3
            && p.books.conversions == [FirstRow(5, true)] && p.books.ledger.rows == [FirstCredit(true)]
  {
    es := TwoReversalsLoaded();
    var row := FirstRow(5, true);
    assert IsCandidate(row, 0, Reported(5, true));
    PlansChargeback(es, 1, 1);
    es := es + [AttributeJob(1, Readable(Reported(5, true), CLICK), RATES, true, None)];
    PlansChargeback(es, 2, 2);
    es := es + [AttributeJob(2, Readable(Reported(5, true), CLICK), RATES, true, None)];
  }

  /** Five points are taken back twice. */
  lemma ChargedBackTwice() returns (ss: seq<R.Step>)
    ensures R.ChargedTwice(R.Rows(ss), 0)
  {
    var es := TwoReversalsPlanned();
    ss := R.Plainly(es);
    R.PlainHistory(es);
    var rows := Reached(es).books.ledger.rows;
    FindsTheFirst(rows, 0, 0);
    assert !ChargedBack(rows, 0);
    R.TwoChargebacksBothCommit(ss, 1, 2, 0);
    ss := ss + [R.Check(1)] + [R.Check(2)] + [R.Commit(1)] + [R.Commit(2)];
  }

  /** An admin rejects the held conversion. */
  lemma HoldRejected() returns (es: seq<Event>)
    ensures var p := Reached(es);
            && p.books.conversions == [FirstRow(5, false).(status := Status.Rejected, reviewed := true)]
            && p.books.archive == [Marked(Fresh(0, 5), Processed)] && p.jobs == map[]
            && 7 in p.books.ledger.balances
  {
    es := OneConversion(false);
    var p := Reached(es);
    FindsTheFirst(p.books.ledger.rows, 0, 0);
    assert !ChargedBack(p.books.ledger.rows, 0);
    assert ResolveHold(p.books.ledger, p.books.conversions, 0, Reject, p.clock).Ok?;
    Extend(es, ReviewHold(0, Reject));
    es := es + [ReviewHold(0, Reject)];
  }

  /** Its chargeback is delivered, and a worker plans it. */
  lemma RejectedHoldsChargebackPlanned() returns (es: seq<Event>)
    ensures var p := Reached(es);
            && p.books.conversions == [FirstRow(5, false).(status := Status.Rejected, reviewed := true)]
            && |p.books.archive| == 2 && p.books.archive[1] == Fresh(0, 6) && p.jobs == map[1 := Ready(1, CHARGEBACK)]
  {
    es := HoldRejected();
    Arrives(es, 0, 6);
    es := es + [Deliver(0, 6)];
    Starts(es, 1, 1);
    es := es + [StartJob(1, 1)];
    PlansChargeback(es, 1, 1);
    es := es + [AttributeJob(1, Readable(Reported(5, true), CLICK), RATES, true, None)];
  }

  /** It is refused and left FAILED, and nothing can ever commit it. */
  lemma RejectedHoldsChargebackFails() returns (es: seq<Event>)
    ensures var p := Reached(es);
            && 1 < |p.books.archive| && p.books.archive[1].state == PostbackState.Failed
            && !PostbackTaken(p.books.conversions, 1)
            && |p.books.conversions| == 1 && RejectedForGood(p.books.conversions[0])
  {
    var planned := RejectedHoldsChargebackPlanned();
    RejectedHoldsCannotBeChargedBack(planned, 1, CHARGEBACK, 0, Reached(planned).clock);
    RefusedThenMarked(Reached(planned), 1, 0);
    TwoMore(planned, PersistJob(1, 0), MarkJob(1));
    es := planned + [PersistJob(1, 0), MarkJob(1)];
  }

  // --- Payments -------------------------------------------------------------------

  const BONUS := Row(7, Bonus, 5, 5, 0, 0, FromAdmin, None, Some(0), 0)
  const POLICY := P.Policy(1, 100, {"paypal"}, {"paypal"}, 1, 3)
  const REQUEST := P.Submission(7, 5, "paypal", Some("user@example.com"))
  const APPROVAL := P.Review(1, "", None)

  lemma OneIsDue()
    ensures MaturableBatch([BONUS], 0, [0])
  {
    assert !Matured([BONUS], 0) && !ChargedBack([BONUS], 0);
  }

  /** Five points granted with no hold. */
  lemma UpToGrant() returns (es: seq<Event>)
    ensures var p := Reached(es);
            && p == INITIAL.(books := p.books)
            && p.books.ledger == Ledger(map[7 := Balance(5, 0, 0, Lifetime(5, 0, 0), 1)], [BONUS])
  {
    var none: seq<Event> := [];
    Extend(none, Register(7));
    es := none + [Register(7)];
    Extend(es, GrantBonus(7, 5, Some(0)));
    es := es + [GrantBonus(7, 5, Some(0))];
  }

  lemma UpToSweep() returns (es: seq<Event>)
    ensures var p := Reached(es);
            && p == INITIAL.(books := p.books, sweeps := map[0 := [0]])
            && p.books.ledger == Ledger(map[7 := Balance(5, 0, 0, Lifetime(5, 0, 0), 1)], [BONUS])
  {
    es := UpToGrant();
    OneIsDue();
    Extend(es, StartSweep(0, [0]));
    es := es + [StartSweep(0, [0])];
  }

  lemma BonusMatures()
    ensures var moved := Ledgers.Mature(Ledger(map[7 := Balance(5, 0, 0, Lifetime(5, 0, 0), 1)], [BONUS]), 0, 0);
            moved.Ok? && moved.value.balances == map[7 := Balance(0, 5, 0, Lifetime(5, 0, 0), 2)]
  {
    assert !Matured([BONUS], 0) && !ChargedBack([BONUS], 0);
  }

  lemma UpToMatured() returns (es: seq<Event>)
    ensures var p := Reached(es);
            && p == INITIAL.(books := p.books, sweeps := map[0 := []])
            && p.books.ledger.balances == map[7 := Balance(0, 5, 0, Lifetime(5, 0, 0), 2)]
  {
    es := UpToSweep();
    BonusMatures();
    Extend(es, SweepOne(0));
    es := es + [SweepOne(0)];
    assert Reached(es).sweeps == map[0 := []];
  }

  lemma RecentAreRequests(payouts: seq<P.Payout>, user: UserId, since: int)
    ensures P.RecentRequests(payouts, user, since) <= |payouts|
  {
    var recent := set i | 0 <= i < |payouts| && payouts[i].user == user && since <= payouts[i].createdAt;
    SubsetSize(recent, Indices(|payouts|));
  }

  lemma UpToRequest() returns (es: seq<Event>)
    ensures var p := Reached(es);
            && p.reviews == map[] && |p.payouts| == 1 && p.payouts[0].status == P.PendingReview
            && p.executed == multiset{} && p.settlements == map[]
  {
    es := UpToMatured();
    RecentAreRequests([], 7, 0 - DAY_MS);
    Extend(es, SubmitPayout(REQUEST, POLICY));
    es := es + [SubmitPayout(REQUEST, POLICY)];
  }

  lemma UpToReview() returns (es: seq<Event>)
    ensures var p := Reached(es);
            && p.reviews == map[1 := RowLock(0, P.PendingReview, P.Approved, APPROVAL)]
            && |p.payouts| == 1 && p.payouts[0].status == P.PendingReview
            && p.executed == multiset{} && p.settlements == map[]
  {
    es := UpToRequest();
    Extend(es, BeginReview(1, 0, P.Approved, APPROVAL));
    es := es + [BeginReview(1, 0, P.Approved, APPROVAL)];
  }

  /** A request an admin approved. */
  lemma UpToApproval() returns (es: seq<Event>)
    ensures AwaitsPayment(Reached(es), 0, 2, 3) && 0 !in Reached(es).executed
  {
    es := UpToReview();
    MoneyOf(es);
    PaymentsOf(es);
    FinishMoves(Reached(es), 1);
    Extend(es, FinishReview(1));
    es := es + [FinishReview(1)];
  }

  /** Money goes out once and the points come back: the payment ran before the failing review, or after it. */
  lemma PaidForNothing(early: bool) returns (es: seq<Event>)
    ensures var p := Reached(es);
            && 0 < |p.payouts| && p.executed[0] == 1 && p.payouts[0].lockId < |p.books.ledger.rows|
            && ActedOn(p.books.ledger.rows, p.payouts[0].lockId, PayoutRefund)
  {
    es := UpToApproval();
    var review := P.Review(3, "bounced", None);
    var begin, finish := BeginReview(3, 0, P.Failed, review), FinishReview(3);
    if early {
      PaidThenFailed(es, 0, 2, 3, review);
      es := es + [BeginSettle(2, 0)] + [Pay(2)] + [begin] + [finish];
    } else {
      FailedThenPaid(es, 0, 2, 3, review);
      es := es + [BeginSettle(2, 0)] + [begin] + [finish] + [Pay(2)];
    }
    PayoutsOf(es);
    assert Funded(Reached(es).books.ledger.rows, Reached(es).payouts, 0);
  }

  /** Money goes out twice for points consumed once. */
  lemma PaidTwiceOver() returns (es: seq<Event>)
    ensures var p := Reached(es); 0 < |p.payouts| && p.payouts[0].status == P.Paid && p.executed[0] == 2
  {
    var approved := UpToApproval();
    PaidTwice(approved, 0, 2, 3, APPROVAL);
    es := approved + [BeginSettle(2, 0)] + [BeginSettle(3, 0)] + [Pay(2)]
          + [BeginReview(2, 0, P.Paid, APPROVAL)] + [FinishReview(2)] + [Pay(3)];
  }
}
