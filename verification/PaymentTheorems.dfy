/**
 Money sent against points consumed. A settlement reads its request as APPROVED, then waits for the
 provider, then enters the review that marks it PAID: other settlements and reviews land in between.
 */
module PaymentTheorems {
  import opened Wrappers
  import opened Ledgers
  import opened LedgerInvariants
  import opened PayoutInvariants
  import opened Platforms
  import opened PlatformInvariants
  import P = Payouts

  // --- What a second look before paying would have caught ------------------------

  /** A payment runs on a request that was paid before or is no longer APPROVED. */
  ghost predicate PaysOutOfTurn(p: Platform, e: Event, i: nat) {
    && e.Pay? && Enabled(p, e) && p.settlements[e.settler].payout == i
    && !(i < |p.payouts| && p.payouts[i].status == P.Approved && i !in p.executed)
  }

  /** A review marks a request FAILED, refunding it, although its payment ran. */
  ghost predicate FailsAfterPayment(p: Platform, e: Event, i: nat) {
    && e.FinishReview? && Enabled(p, e) && p.reviews[e.admin].payout == i && p.reviews[e.admin].to == P.Failed
    && i < |p.payouts| && P.CanTransition(p.payouts[i].status, P.Failed) && i in p.executed
  }

  ghost predicate OutOfTurnAt(es: seq<Event>, m: nat, i: nat) {
    m < |es| && PaysOutOfTurn(Reached(es[..m]), es[m], i)
  }

  ghost predicate FailsAt(es: seq<Event>, m: nat, i: nat) {
    m < |es| && FailsAfterPayment(Reached(es[..m]), es[m], i)
  }

  ghost predicate PaidOutOfTurn(es: seq<Event>, i: nat) {
    exists m: nat :: OutOfTurnAt(es, m, i)
  }

  ghost predicate FailedAfterPayment(es: seq<Event>, i: nat) {
    exists m: nat :: FailsAt(es, m, i)
  }

  /** What is known of a request's payments: only approved requests are ever paid, and when they part. */
  ghost predicate PaymentsTell(p: Platform, i: nat, parted: bool) {
    && (i in p.executed || Waiting(p, i) != {} ==>
          i < |p.payouts| && p.payouts[i].status != P.PendingReview && p.payouts[i].status != P.Rejected)
    && (parted <==>
          2 <= p.executed[i] || (i < |p.payouts| && p.payouts[i].status == P.Failed && i in p.executed))
  }

  /** The settlements of a request that read it as APPROVED and whose payment has not run yet. */
  ghost function Waiting(p: Platform, i: nat): set<nat> {
    set a | a in p.settlements && p.settlements[a] == Settlement(i, false)
  }

  lemma SameMoment(es: seq<Event>, m: nat, i: nat)
    requires m < |es| - 1
    ensures OutOfTurnAt(es[..|es| - 1], m, i) <==> OutOfTurnAt(es, m, i)
    ensures FailsAt(es[..|es| - 1], m, i) <==> FailsAt(es, m, i)
  {
    assert es[..|es| - 1][..m] == es[..m];
  }

  lemma PaidOutOfTurnStep(es: seq<Event>, i: nat)
    requires es != []
    ensures PaidOutOfTurn(es, i) <==> PaidOutOfTurn(es[..|es| - 1], i) || OutOfTurnAt(es, |es| - 1, i)
  {
    var before := es[..|es| - 1];
    if m: nat :| OutOfTurnAt(before, m, i) {
      SameMoment(es, m, i);
    }
    if m: nat :| OutOfTurnAt(es, m, i) && m < |es| - 1 {
      SameMoment(es, m, i);
    }
  }

  lemma FailedStep(es: seq<Event>, i: nat)
    requires es != []
    ensures FailedAfterPayment(es, i) <==> FailedAfterPayment(es[..|es| - 1], i) || FailsAt(es, |es| - 1, i)
  {
    var before := es[..|es| - 1];
    if m: nat :| FailsAt(before, m, i) {
      SameMoment(es, m, i);
    }
    if m: nat :| FailsAt(es, m, i) && m < |es| - 1 {
      SameMoment(es, m, i);
    }
  }

  // --- What one event does to a request and its settlements ---------------------

  /** A finished review moves its own request along the machine, or nothing. */
  lemma FinishMoves(p: Platform, a: nat)
    requires Enabled(p, FinishReview(a)) && ReviewsInv(p) && MoneyInv(p.books.ledger, p.books.conversions, p.payouts)
    ensures var x, p' := p.reviews[a], ApplyFinish(p, a);
            && p'.executed == p.executed && p'.settlements == p.settlements
            && if P.CanTransition(p.payouts[x.payout].status, x.to)
               then p'.payouts == p.payouts[x.payout := P.Reviewed(p.payouts[x.payout], x.to, x.review, p.clock)]
               else p'.payouts == p.payouts
  {
    var x := p.reviews[a];
    TransitionSucceeds(p.books.ledger, p.payouts, x.payout, x.to, x.review, p.clock);
    if P.CanTransition(p.payouts[x.payout].status, x.to) {
      TransitionMoves(p.books.ledger, p.payouts, x.payout, x.to, x.review, p.clock);
    }
  }

  lemma SubmitAddsOne(p: Platform, s: P.Submission, policy: P.Policy)
    ensures var p' := ApplySubmit(p, s, policy);
            && p'.executed == p.executed && p'.settlements == p.settlements && p.payouts <= p'.payouts
            && forall k | |p.payouts| <= k < |p'.payouts| :: p'.payouts[k].status == P.PendingReview
  {
  }

  /** Settlements and the reviews they enter leave every request as it is. */
  lemma SettlingMoves(p: Platform, e: Event, i: nat)
    requires Enabled(p, e) && Settles(e)
    ensures var p' := Apply(p, e);
            && p'.payouts == p.payouts
            && p'.executed[i] == p.executed[i] + (if e.Pay? && p.settlements[e.settler].payout == i then 1 else 0)
            && Waiting(p', i) ==
               match e
               case BeginSettle(a, j) => if j == i then Waiting(p, i) + {a} else Waiting(p, i)
               case Pay(a) => Waiting(p, i) - {a}
               case DropSettle(a) => Waiting(p, i) - {a}
               case _ => Waiting(p, i)
  {
  }

  lemma AbortMoves(p: Platform, a: nat)
    requires Enabled(p, AbortReview(a))
    ensures SamePayments(p, Apply(p, AbortReview(a)))
  {
  }

  /** Every event but a settlement's, a review's end and a submission. */
  lemma MostLeavePayments(p: Platform, e: Event)
    requires Enabled(p, e) && !Settles(e) && !e.FinishReview? && !e.SubmitPayout?
    ensures SamePayments(p, Apply(p, e))
  {
    if e.AbortReview? {
      AbortMoves(p, e.admin);
    } else {
      OutsideWithdrawals(p, e);
    }
  }

  lemma FinishTells(p: Platform, a: nat, i: nat, parted: bool)
    requires PaymentsTell(p, i, parted) && Enabled(p, FinishReview(a))
    requires ReviewsInv(p) && MoneyInv(p.books.ledger, p.books.conversions, p.payouts)
    ensures PaymentsTell(ApplyFinish(p, a), i, parted || FailsAfterPayment(p, FinishReview(a), i))
  {
    FinishMoves(p, a);
  }

  lemma SettlingTells(p: Platform, e: Event, i: nat, parted: bool)
    requires PaymentsTell(p, i, parted) && Enabled(p, e) && Settles(e) && ReviewsInv(p)
    ensures PaymentsTell(Apply(p, e), i, parted || PaysOutOfTurn(p, e, i))
  {
    SettlingMoves(p, e, i);
    if e.Pay? && p.settlements[e.settler].payout == i {
      assert e.settler in Waiting(p, i);
    }
  }

  lemma SubmitTells(p: Platform, s: P.Submission, policy: P.Policy, i: nat, parted: bool)
    requires PaymentsTell(p, i, parted)
    ensures PaymentsTell(ApplySubmit(p, s, policy), i, parted)
  {
    SubmitAddsOne(p, s, policy);
  }

  lemma QuietTells(p: Platform, e: Event, i: nat, parted: bool)
    requires PaymentsTell(p, i, parted) && Enabled(p, e) && !Settles(e) && !e.FinishReview? && !e.SubmitPayout?
    ensures PaymentsTell(Apply(p, e), i, parted)
  {
    MostLeavePayments(p, e);
  }

  lemma PaymentStep(p: Platform, e: Event, i: nat, parted: bool)
    requires PaymentsTell(p, i, parted) && Enabled(p, e)
    requires ReviewsInv(p) && MoneyInv(p.books.ledger, p.books.conversions, p.payouts)
    ensures PaymentsTell(Apply(p, e), i, parted || PaysOutOfTurn(p, e, i) || FailsAfterPayment(p, e, i))
  {
    if e.FinishReview? {
      FinishTells(p, e.admin, i, parted);
    } else if e.SubmitPayout? {
      SubmitTells(p, e.submission, e.policy, i, parted);
    } else if Settles(e) {
      SettlingTells(p, e, i, parted);
    } else {
      QuietTells(p, e, i, parted);
    }
  }

  lemma MoneyOf(es: seq<Event>)
    ensures MoneyInv(Reached(es).books.ledger, Reached(es).books.conversions, Reached(es).payouts)
  {
    EveryRun(es);
  }

  lemma {:induction false} PaymentsOverRuns(es: seq<Event>, i: nat)
    ensures PaymentsTell(Reached(es), i, PaidOutOfTurn(es, i) || FailedAfterPayment(es, i))
  {
    if es != [] {
      var n := |es| - 1;
      PaymentsOverRuns(es[..n], i);
      PaidOutOfTurnStep(es, i);
      FailedStep(es, i);
      MoneyOf(es[..n]);
      PaymentsOf(es[..n]);
      if Enabled(Reached(es[..n]), es[n]) {
        PaymentStep(Reached(es[..n]), es[n], i, PaidOutOfTurn(es[..n], i) || FailedAfterPayment(es[..n], i));
      }
    }
  }

  // --- Exactly when money and points part ------------------------------------------

  ghost predicate Ended(p: Platform, i: nat) {
    i < |p.payouts| && P.IsTerminal(p.payouts[i].status)
  }

  /** The payment ran exactly as often as the points were consumed. */
  ghost predicate SentAsConsumed(p: Platform, i: nat)
    requires i < |p.payouts|
  {
    p.executed[i] == if ActedOn(p.books.ledger.rows, p.payouts[i].lockId, PayoutSettle) then 1 else 0
  }

  /** The ledger consumed the points of exactly the PAID requests. */
  lemma SentTells(es: seq<Event>, i: nat)
    requires i < |Reached(es).payouts|
    ensures var p := Reached(es);
            SentAsConsumed(p, i) <==> p.executed[i] == if p.payouts[i].status == P.Paid then 1 else 0
  {
    PayoutsOf(es);
    assert Funded(Reached(es).books.ledger.rows, Reached(es).payouts, i);
  }

  /**
   Once a request has ended, its money was sent exactly as often as its points were consumed, if and
   only if no payment ran on it when it was already paid or no longer APPROVED, and no review failed
   it after its payment.
   */
  lemma {:induction false} MoneySentIffPointsConsumed(es: seq<Event>, i: nat)
    requires Ended(Reached(es), i)
    ensures SentAsConsumed(Reached(es), i) <==> !PaidOutOfTurn(es, i) && !FailedAfterPayment(es, i)
  {
    PaymentsOverRuns(es, i);
    PaymentsOf(es);
    SentTells(es, i);
  }

  // --- Every settlement that read APPROVED -----------------------------------------

  /** How many settlements have read the request as APPROVED. */
  ghost function Begun(es: seq<Event>, i: nat): nat {
    if es == [] then 0
    else
      var n := |es| - 1;
      Begun(es[..n], i) + if es[n].BeginSettle? && es[n].payout == i && Enabled(Reached(es[..n]), es[n]) then 1 else 0
  }

  /** How many of them gave up, or were refused by the provider, before their payment ran. */
  ghost function GivenUp(es: seq<Event>, i: nat): nat {
    if es == [] then 0
    else
      var n := |es| - 1;
      GivenUp(es[..n], i) + if es[n].DropSettle? && es[n].settler in Waiting(Reached(es[..n]), i) then 1 else 0
  }

  lemma NobodyElseSettles(p: Platform, e: Event, i: nat)
    requires Enabled(p, e) && !Settles(e)
    requires ReviewsInv(p) && MoneyInv(p.books.ledger, p.books.conversions, p.payouts)
    ensures Apply(p, e).executed == p.executed && Waiting(Apply(p, e), i) == Waiting(p, i)
  {
    if e.FinishReview? {
      FinishMoves(p, e.admin);
    } else if e.SubmitPayout? {
      SubmitAddsOne(p, e.submission, e.policy);
    } else {
      MostLeavePayments(p, e);
    }
  }

  /** Each settlement that read APPROVED either paid, gave up, or still waits. */
  lemma {:induction false} SettlementsAreAccountedFor(es: seq<Event>, i: nat)
    ensures Begun(es, i) == Reached(es).executed[i] + |Waiting(Reached(es), i)| + GivenUp(es, i)
  {
    if es != [] {
      var n := |es| - 1;
      var p, e := Reached(es[..n]), es[n];
      SettlementsAreAccountedFor(es[..n], i);
      MoneyOf(es[..n]);
      PaymentsOf(es[..n]);
      if Enabled(p, e) {
        if Settles(e) {
          SettlingMoves(p, e, i);
        } else {
          NobodyElseSettles(p, e, i);
        }
      }
    }
  }

  // --- After the end ------------------------------------------------------------------

  lemma EndedStays(p: Platform, e: Event, i: nat)
    requires Ended(p, i) && Enabled(p, e)
    requires ReviewsInv(p) && MoneyInv(p.books.ledger, p.books.conversions, p.payouts)
    ensures Ended(Apply(p, e), i) && Apply(p, e).payouts[i].status == p.payouts[i].status
  {
    if e.FinishReview? {
      FinishMoves(p, e.admin);
    } else if e.SubmitPayout? {
      SubmitAddsOne(p, e.submission, e.policy);
    } else if Settles(e) {
      SettlingMoves(p, e, i);
    } else {
      MostLeavePayments(p, e);
    }
  }

  lemma EndedStep(p: Platform, e: Event, i: nat)
    requires Ended(p, i) && Enabled(p, e)
    requires ReviewsInv(p) && MoneyInv(p.books.ledger, p.books.conversions, p.payouts)
    ensures var p' := Apply(p, e);
            && Ended(p', i) && p'.payouts[i].status == p.payouts[i].status
            && p.executed[i] <= p'.executed[i] && Waiting(p', i) <= Waiting(p, i)
            && p'.executed[i] + |Waiting(p', i)| <= p.executed[i] + |Waiting(p, i)|
  {
    EndedStays(p, e, i);
    if Settles(e) {
      SettlingMoves(p, e, i);
    } else {
      NobodyElseSettles(p, e, i);
    }
  }

  /** An ended request stays as it ended; no settlement begins on it any more. */
  lemma {:induction false} AfterTheEnd(es: seq<Event>, more: seq<Event>, i: nat)
    requires Ended(Reached(es), i)
    ensures var p, p' := Reached(es), Reached(es + more);
            && Ended(p', i) && p'.payouts[i].status == p.payouts[i].status
            && p.executed[i] <= p'.executed[i] && Waiting(p', i) <= Waiting(p, i)
            && p'.executed[i] + |Waiting(p', i)| <= p.executed[i] + |Waiting(p, i)|
    ensures Begun(es + more, i) == Begun(es, i)
  {
    if more == [] {
      assert es + more == es;
    } else {
      var n := |more| - 1;
      AfterTheEnd(es, more[..n], i);
      OneMore(es, more);
      assert (es + more)[..|es + more| - 1] == es + more[..n];
      MoneyOf(es + more[..n]);
      PaymentsOf(es + more[..n]);
      if Enabled(Reached(es + more[..n]), more[n]) {
        EndedStep(Reached(es + more[..n]), more[n], i);
      }
    }
  }

  /**
   At any time after the end the payment has run at most once if and only if, of the settlements
   that read APPROVED before the end, all but at most one have given up or still wait.
   */
  lemma PaidAtMostOnceIff(es: seq<Event>, more: seq<Event>, i: nat)
    requires Ended(Reached(es), i)
    ensures Reached(es + more).executed[i] <= 1 <==>
            Begun(es, i) <= GivenUp(es + more, i) + |Waiting(Reached(es + more), i)| + 1
  {
    AfterTheEnd(es, more, i);
    SettlementsAreAccountedFor(es + more, i);
  }

  ghost predicate NeverPaidTwice(es: seq<Event>, i: nat) {
    forall more :: Reached(es + more).executed[i] <= 1
  }

  ghost predicate SentAsConsumedForGood(es: seq<Event>, i: nat) {
    forall more :: i < |Reached(es + more).payouts| && SentAsConsumed(Reached(es + more), i)
  }

  /** A settlement that still waits can pay whatever has become of the request. */
  lemma WaitingCanPay(es: seq<Event>, a: nat, i: nat)
    requires a in Waiting(Reached(es), i)
    ensures var p, p' := Reached(es), Reached(es + [Pay(a)]);
            p'.executed[i] == p.executed[i] + 1 && Waiting(p', i) == Waiting(p, i) - {a}
  {
    Extend(es, Pay(a));
    SettlingMoves(Reached(es), Pay(a), i);
  }

  /**
   Nothing that can still happen pays an ended request twice, if and only if its payments and the
   settlements still waiting on it are at most one together.
   */
  lemma PaidOnceForGoodIff(es: seq<Event>, i: nat)
    requires Ended(Reached(es), i)
    ensures NeverPaidTwice(es, i) <==> Reached(es).executed[i] + |Waiting(Reached(es), i)| <= 1
  {
    var p := Reached(es);
    forall more ensures p.executed[i] + |Waiting(p, i)| <= 1 ==> Reached(es + more).executed[i] <= 1 {
      AfterTheEnd(es, more, i);
    }
    if 1 < p.executed[i] + |Waiting(p, i)| {
      assert es + [] == es;
      assert Reached(es + []) == p;
      if p.executed[i] <= 1 {
        var a :| a in Waiting(p, i);
        WaitingCanPay(es, a, i);
        if p.executed[i] == 0 {
          assert Waiting(p, i) != {a};
          var b :| b in Waiting(p, i) && b != a;
          WaitingCanPay(es + [Pay(a)], b, i);
          assert es + [Pay(a)] + [Pay(b)] == es + [Pay(a), Pay(b)];
        }
      }
    }
  }

  /** Money and points of an ended request agree for good if and only if they agree and no settlement waits on it. */
  lemma MoneySentForGoodIff(es: seq<Event>, i: nat)
    requires Ended(Reached(es), i)
    ensures SentAsConsumedForGood(es, i) <==> SentAsConsumed(Reached(es), i) && Waiting(Reached(es), i) == {}
  {
    var p := Reached(es);
    SentTells(es, i);
    forall more
      ensures i < |Reached(es + more).payouts|
      ensures SentAsConsumed(p, i) && Waiting(p, i) == {} ==> SentAsConsumed(Reached(es + more), i)
    {
      AfterTheEnd(es, more, i);
      SentTells(es + more, i);
    }
    assert es + [] == es;
    assert Reached(es + []) == p;
    if SentAsConsumed(p, i) && Waiting(p, i) != {} {
      var a :| a in Waiting(p, i);
      WaitingCanPay(es, a, i);
      AfterTheEnd(es, [Pay(a)], i);
      SentTells(es + [Pay(a)], i);
    }
  }

  // --- They do part --------------------------------------------------------------------

  /** An approved request nobody is reviewing, and two admins with nothing under way. */
  ghost predicate AwaitsPayment(p: Platform, i: nat, a: nat, b: nat) {
    && i < |p.payouts| && p.payouts[i].status == P.Approved && a != b
    && a !in p.reviews && b !in p.reviews && a !in p.settlements && b !in p.settlements
    && forall x | x in p.reviews :: p.reviews[x].payout != i
  }

  lemma Asks(es: seq<Event>, a: nat, i: nat)
    requires var p := Reached(es); i < |p.payouts| && p.payouts[i].status == P.Approved && a !in p.settlements
    ensures var p := Reached(es);
            Reached(es + [BeginSettle(a, i)]) == p.(settlements := p.settlements[a := Settlement(i, false)])
  {
    Extend(es, BeginSettle(a, i));
  }

  lemma Pays(es: seq<Event>, a: nat, i: nat)
    requires var p := Reached(es); a in p.settlements && p.settlements[a] == Settlement(i, false)
    ensures var p := Reached(es);
            Reached(es + [Pay(a)])
            == p.(executed := p.executed + multiset{i}, settlements := p.settlements[a := Settlement(i, true)])
  {
    Extend(es, Pay(a));
  }

  predicate CanEnd(p: Platform, i: nat, admin: nat, to: P.Status, review: P.Review) {
    && i < |p.payouts| && p.payouts[i].status == P.Approved && (to == P.Paid || to == P.Failed)
    && CanBeginReview(p, admin, i, to, review)
  }

  lemma RowIsDecided(held: Platform, i: nat, admin: nat, to: P.Status, review: P.Review)
    requires ReviewsInv(held) && MoneyInv(held.books.ledger, held.books.conversions, held.payouts)
    requires admin in held.reviews && held.reviews[admin] == RowLock(i, P.Approved, to, review)
    requires to == P.Paid || to == P.Failed
    ensures var p' := ApplyFinish(held, admin);
            && i < |p'.payouts| && p'.payouts[i].status == to
            && p'.executed == held.executed && p'.settlements == held.settlements
  {
    FinishMoves(held, admin);
  }

  lemma ReviewEnds(es: seq<Event>, i: nat, admin: nat, to: P.Status, review: P.Review)
    requires CanEnd(Reached(es), i, admin, to, review)
    ensures var p, p' := Reached(es), Reached(es + [BeginReview(admin, i, to, review)] + [FinishReview(admin)]);
            && i < |p'.payouts| && p'.payouts[i].status == to && p'.executed == p.executed
            && p'.settlements == if to == P.Paid then p.settlements - {admin} else p.settlements
  {
    var held := es + [BeginReview(admin, i, to, review)];
    Extend(es, BeginReview(admin, i, to, review));
    MoneyOf(held);
    PaymentsOf(held);
    RowIsDecided(Reached(held), i, admin, to, review);
    Extend(held, FinishReview(admin));
  }

  /** From any approved request: pay, then fail it. The money is gone and the points are back. */
  lemma PaidThenFailed(es: seq<Event>, i: nat, a: nat, b: nat, review: P.Review)
    requires AwaitsPayment(Reached(es), i, a, b) && review.reason != ""
    ensures var p := Reached(es + [BeginSettle(a, i)] + [Pay(a)]
                             + [BeginReview(b, i, P.Failed, review)] + [FinishReview(b)]);
            Ended(p, i) && p.payouts[i].status == P.Failed && p.executed[i] == Reached(es).executed[i] + 1
  {
    Asks(es, a, i);
    Pays(es + [BeginSettle(a, i)], a, i);
    ReviewEnds(es + [BeginSettle(a, i)] + [Pay(a)], i, b, P.Failed, review);
  }

  /** From any approved request: it is failed while a settlement waits for the provider, and then paid. */
  lemma FailedThenPaid(es: seq<Event>, i: nat, a: nat, b: nat, review: P.Review)
    requires AwaitsPayment(Reached(es), i, a, b) && review.reason != ""
    ensures var p := Reached(es + [BeginSettle(a, i)]
                             + [BeginReview(b, i, P.Failed, review)] + [FinishReview(b)] + [Pay(a)]);
            Ended(p, i) && p.payouts[i].status == P.Failed && p.executed[i] == Reached(es).executed[i] + 1
  {
    Asks(es, a, i);
    ReviewEnds(es + [BeginSettle(a, i)], i, b, P.Failed, review);
    Pays(es + [BeginSettle(a, i)] + [BeginReview(b, i, P.Failed, review)] + [FinishReview(b)], a, i);
  }

  /** From any approved request: two settlements read APPROVED, one is marked PAID, and the other pays again. */
  lemma PaidTwice(es: seq<Event>, i: nat, a: nat, b: nat, review: P.Review)
    requires AwaitsPayment(Reached(es), i, a, b)
    ensures var p := Reached(es + [BeginSettle(a, i)] + [BeginSettle(b, i)] + [Pay(a)]
                             + [BeginReview(a, i, P.Paid, review)] + [FinishReview(a)] + [Pay(b)]);
            Ended(p, i) && p.payouts[i].status == P.Paid && p.executed[i] == Reached(es).executed[i] + 2
  {
    Asks(es, a, i);
    Asks(es + [BeginSettle(a, i)], b, i);
    var asked := es + [BeginSettle(a, i)] + [BeginSettle(b, i)];
    Pays(asked, a, i);
    ReviewEnds(asked + [Pay(a)], i, a, P.Paid, review);
    Pays(asked + [Pay(a)] + [BeginReview(a, i, P.Paid, review)] + [FinishReview(a)], b, i);
  }
}
