/** Which requests are accepted, what they keep, and where a review can bring them. */
module PayoutTheorems {
  import opened Wrappers
  import opened Ledgers
  import opened LedgerInvariants
  import opened LedgerTheorems
  import opened PayoutInvariants
  import opened Platforms
  import opened PlatformInvariants
  import opened PaymentTheorems
  import P = Payouts

  // --- Submissions ------------------------------------------------------------

  /** The user's requests of the 24 hours before now. */
  function OfToday(payouts: seq<P.Payout>, user: UserId, now: int): set<int> {
    set j | 0 <= j < |payouts| && payouts[j].user == user && now - 86400000 <= payouts[j].createdAt
  }

  predicate Acceptable(payouts: seq<P.Payout>, s: P.Submission, policy: P.Policy, now: int) {
    && s.via in policy.methods && s.via in policy.supported
    && policy.minimum <= s.amount <= policy.maximum
    && s.destination.Some?
    && |OfToday(payouts, s.user, now)| < policy.dailyCap
  }

  /** What a request holds of the submission it came from, whatever has been decided about it since. */
  predicate Keeps(x: P.Payout, s: P.Submission, policy: P.Policy, at: int) {
    && x.user == s.user && x.amount == s.amount && x.via == s.via && s.destination == Some(x.destination)
    && x.rate == policy.rate && x.cash == s.amount * 100 / policy.rate && x.createdAt == at
  }

  /** A submission is accepted if and only if its policy allows it and its points are available to lock. */
  lemma AcceptedIff(l: Ledger, payouts: seq<P.Payout>, s: P.Submission, policy: P.Policy, now: int)
    ensures var accepted := P.Submit(l, payouts, s, policy, now);
            && (accepted.Ok? <==>
                  Acceptable(payouts, s, policy, now)
                  && 0 < s.amount && s.user in l.balances && s.amount <= l.balances[s.user].available)
            && (accepted.Ok? ==>
                  var (l', payouts') := accepted.value;
                  && Shifts(l, l', s.user, 0, -s.amount, s.amount)
                  && |payouts'| == |payouts| + 1 && payouts'[..|payouts|] == payouts
                  && Keeps(payouts'[|payouts|], s, policy, now) && payouts'[|payouts|].status == P.PendingReview)
  {
    LockIffCovered(l, s.user, s.amount, |payouts|, now);
    assert OfToday(payouts, s.user, now)
        == set j | 0 <= j < |payouts| && payouts[j].user == s.user && now - DAY_MS <= payouts[j].createdAt;
  }

  // --- What one event does to the requests --------------------------------------

  /** The same request, or moved along one edge of the machine by a review that asked for it. */
  predicate MovesOn(x: P.Payout, x': P.Payout) {
    || x' == x
    || (x' == x.(status := x'.status, reviewedBy := x'.reviewedBy, reference := x'.reference, settledAt := x'.settledAt)
        && match x.status
           case PendingReview => x'.status == P.Approved || x'.status == P.Rejected
           case Approved => x'.status == P.Paid || x'.status == P.Failed
           case Paid => false
           case Rejected => false
           case Failed => false)
  }

  lemma ReviewMovesOn(p: Platform, a: nat)
    requires Enabled(p, FinishReview(a)) && ReviewsInv(p) && MoneyInv(p.books.ledger, p.books.conversions, p.payouts)
    ensures var p' := ApplyFinish(p, a);
            |p'.payouts| == |p.payouts| && forall i | 0 <= i < |p.payouts| :: MovesOn(p.payouts[i], p'.payouts[i])
  {
    FinishMoves(p, a);
  }

  lemma RequestsMoveOn(p: Platform, e: Event)
    requires Enabled(p, e) && ReviewsInv(p) && MoneyInv(p.books.ledger, p.books.conversions, p.payouts)
    ensures var p' := Apply(p, e);
            && |p.payouts| <= |p'.payouts| <= |p.payouts| + 1
            && (forall i | 0 <= i < |p.payouts| :: MovesOn(p.payouts[i], p'.payouts[i]))
            && (|p'.payouts| == |p.payouts| + 1 ==>
                  e.SubmitPayout? && Acceptable(p.payouts, e.submission, e.policy, p.clock)
                  && Keeps(p'.payouts[|p.payouts|], e.submission, e.policy, p.clock)
                  && p'.payouts[|p.payouts|].status == P.PendingReview)
  {
    if e.FinishReview? {
      ReviewMovesOn(p, e.admin);
    } else if e.SubmitPayout? {
      AcceptedIff(p.books.ledger, p.payouts, e.submission, e.policy, p.clock);
    } else if Settles(e) {
      SettlingMoves(p, e, 0);
    } else {
      MostLeavePayments(p, e);
    }
  }

  // --- Over whole histories ------------------------------------------------------

  lemma RequestStep(es: seq<Event>, k: nat, i: nat)
    requires k < |es| && i < |Reached(es[..k + 1]).payouts|
    ensures var p, p' := Reached(es[..k]), Reached(es[..k + 1]);
            if i < |p.payouts| then MovesOn(p.payouts[i], p'.payouts[i])
            else
              && i == |p.payouts| && es[k].SubmitPayout?
              && Acceptable(p.payouts, es[k].submission, es[k].policy, p.clock)
              && Keeps(p'.payouts[i], es[k].submission, es[k].policy, p.clock)
  {
    assert es[..k + 1] == es[..k] + [es[k]];
    NextAfter(es[..k], es[k]);
    MoneyOf(es[..k]);
    PaymentsOf(es[..k]);
    if Enabled(Reached(es[..k]), es[k]) {
      RequestsMoveOn(Reached(es[..k]), es[k]);
    }
  }

  /** The m-th event submitted request i under a policy that allowed it, and the request still holds what was submitted. */
  ghost predicate SubmittedAt(es: seq<Event>, m: nat, i: nat, x: P.Payout) {
    && m < |es| && es[m].SubmitPayout? && |Reached(es[..m]).payouts| == i
    && Acceptable(Reached(es[..m]).payouts, es[m].submission, es[m].policy, Reached(es[..m]).clock)
    && Keeps(x, es[m].submission, es[m].policy, Reached(es[..m]).clock)
  }

  /**
   Every stored request was submitted within the policy of its day: amount between the minimum and the
   maximum, a method both configured and supported, a destination, and fewer requests than the cap in the
   24 hours before; and its cash is its amount at the rate of that policy, rounded down.
   */
  lemma {:induction false} RequestsWereAccepted(es: seq<Event>, k: nat, i: nat) returns (m: nat)
    requires k <= |es| && i < |Reached(es[..k]).payouts|
    ensures m < k && SubmittedAt(es, m, i, Reached(es[..k]).payouts[i])
  {
    assert es[..0] == [];
    if k > 0 {
      RequestStep(es, k - 1, i);
      if i < |Reached(es[..k - 1]).payouts| {
        m := RequestsWereAccepted(es, k - 1, i);
      } else {
        m := k - 1;
      }
    }
  }

  /** Where a request can have got to. */
  predicate Leads(from: P.Status, to: P.Status) {
    || to == from
    || (from == P.PendingReview && to != P.PendingReview)
    || (from == P.Approved && (to == P.Paid || to == P.Failed))
  }

  /** No request ever goes back, or on once it has ended, and none forgets what was submitted. */
  lemma {:induction false} RequestsGoForward(es: seq<Event>, j: nat, k: nat, i: nat)
    requires j <= k <= |es| && i < |Reached(es[..j]).payouts|
    ensures i < |Reached(es[..k]).payouts|
    ensures var x, x' := Reached(es[..j]).payouts[i], Reached(es[..k]).payouts[i];
            && Leads(x.status, x'.status)
            && x' == x.(status := x'.status, reviewedBy := x'.reviewedBy, reference := x'.reference, settledAt := x'.settledAt)
  {
    if j < k {
      RequestsGoForward(es, j, k - 1, i);
      Grows(es, k - 1);
      RequestStep(es, k - 1, i);
    }
  }

  lemma Grows(es: seq<Event>, k: nat)
    requires k < |es|
    ensures |Reached(es[..k]).payouts| <= |Reached(es[..k + 1]).payouts|
  {
    assert es[..k + 1] == es[..k] + [es[k]];
    NextAfter(es[..k], es[k]);
    MoneyOf(es[..k]);
    PaymentsOf(es[..k]);
    if Enabled(Reached(es[..k]), es[k]) {
      RequestsMoveOn(Reached(es[..k]), es[k]);
    }
  }

  /**
   A review brings its request to the status it asks for if and only if it approves or rejects a pending
   one, or settles or fails an approved one; otherwise it changes no request and moves no points.
   */
  lemma ReviewDecidesIff(es: seq<Event>, a: nat)
    requires Enabled(Reached(es), FinishReview(a))
    ensures var p, p' := Reached(es), Reached(es + [FinishReview(a)]);
            var x := p.reviews[a];
            var status := p.payouts[x.payout].status;
            var allowed := (status == P.PendingReview && (x.to == P.Approved || x.to == P.Rejected))
                           || (status == P.Approved && (x.to == P.Paid || x.to == P.Failed));
            && |p'.payouts| == |p.payouts|
            && p'.payouts[x.payout].status == (if allowed then x.to else status)
            && (!allowed ==> p'.payouts == p.payouts && p'.books == p.books)
            && forall i | 0 <= i < |p.payouts| && i != x.payout :: p'.payouts[i] == p.payouts[i]
  {
    var p := Reached(es);
    MoneyOf(es);
    PaymentsOf(es);
    Extend(es, FinishReview(a));
    FinishMoves(p, a);
    assert P.CanTransition(p.payouts[p.reviews[a].payout].status, p.reviews[a].to) || ApplyFinish(p, a).books == p.books;
  }

  /** A payment may start on an approved request and on no other. */
  lemma PayableIff(payouts: seq<P.Payout>, id: nat)
    ensures P.CheckExecution(payouts, id).Ok? <==> id < |payouts| && payouts[id].status == P.Approved
    ensures P.CheckExecution(payouts, id).Err? ==>
              P.CheckExecution(payouts, id).error == if id < |payouts| then InvalidTransition else PayoutNotFound
  {
  }

  /**
   What an admin is told, in this order: refusing a request needs a reason, the request has to exist, and
   the machine has to lead there. Nothing else ever refuses.
   */
  lemma ReviewAnswers(l: Ledger, ps: seq<P.Payout>, id: nat, to: P.Status, review: P.Review, now: int)
    requires Inv(l) && PayoutInv(l.rows, ps)
    ensures var answer := P.ApplyTransition(l, ps, id, to, review, now);
            if (to == P.Rejected || to == P.Failed) && review.reason == "" then answer == Err(ReasonMissing)
            else if id >= |ps| then answer == Err(PayoutNotFound)
            else if ps[id].status == P.PendingReview && (to == P.Approved || to == P.Rejected) then answer.Ok?
            else if ps[id].status == P.Approved && (to == P.Paid || to == P.Failed) then answer.Ok?
            else answer == Err(InvalidTransition)
  {
    if id < |ps| {
      TransitionSucceeds(l, ps, id, to, review, now);
    }
  }

  /** What a decision writes on the request itself. */
  predicate WrittenUp(x: P.Payout, x': P.Payout, to: P.Status, review: P.Review, now: int) {
    && x'.status == to && x'.reviewedBy == Some(review.admin)
    && (to == P.Paid ==> x'.settledAt == Some(now) && x'.reference == review.reference)
    && (to != P.Paid ==> x'.settledAt == x.settledAt && x'.reference == x.reference)
  }

  /** What a decision does to the user's points: settling uses the locked ones up, refusing gives them back. */
  predicate PointsFollow(l: Ledger, l': Ledger, x: P.Payout, to: P.Status) {
    match to
    case Approved => l' == l
    case Paid => Shifts(l, l', x.user, 0, 0, -x.amount) && Counts(l, l', x.user, 0, x.amount, 0)
    case Rejected => Shifts(l, l', x.user, 0, x.amount, -x.amount) && Counts(l, l', x.user, 0, 0, 0)
    case Failed => Shifts(l, l', x.user, 0, x.amount, -x.amount) && Counts(l, l', x.user, 0, 0, 0)
    case PendingReview => false
  }

  lemma DecisionMoves(l: Ledger, ps: seq<P.Payout>, id: nat, to: P.Status, review: P.Review, now: int)
    requires id < |ps| && Funded(l.rows, ps, id)
    requires P.Transition(l, ps, id, ps[id].status, to, review, now).Ok?
    ensures var (l', ps') := P.Transition(l, ps, id, ps[id].status, to, review, now).value;
            && PointsFollow(l, l', ps[id], to) && |ps'| == |ps| && WrittenUp(ps[id], ps'[id], to, review, now)
  {
    ResolveOnce(l, ps[id].lockId, to == P.Paid, now);
  }

  /** A decision that is allowed is written on the request, and its points follow. */
  lemma DecisionsMovePoints(es: seq<Event>, a: nat)
    requires Enabled(Reached(es), FinishReview(a))
    requires var p := Reached(es); P.CanTransition(p.payouts[p.reviews[a].payout].status, p.reviews[a].to)
    ensures var p, p' := Reached(es), Reached(es + [FinishReview(a)]);
            var x := p.reviews[a];
            && |p'.payouts| == |p.payouts|
            && WrittenUp(p.payouts[x.payout], p'.payouts[x.payout], x.to, x.review, p.clock)
            && PointsFollow(p.books.ledger, p'.books.ledger, p.payouts[x.payout], x.to)
  {
    var p := Reached(es);
    var x := p.reviews[a];
    MoneyOf(es);
    PaymentsOf(es);
    Extend(es, FinishReview(a));
    TransitionSucceeds(p.books.ledger, p.payouts, x.payout, x.to, x.review, p.clock);
    assert Funded(p.books.ledger.rows, p.payouts, x.payout);
    DecisionMoves(p.books.ledger, p.payouts, x.payout, x.to, x.review, p.clock);
  }
}
