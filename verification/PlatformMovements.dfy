/** What one event of the platform does to the ledger: at most one movement, and its row comes last. */
module PlatformMovements {
  import opened Wrappers
  import opened Ledgers
  import opened Conversions
  import opened Platforms
  import P = Payouts

  /** A row of somebody with an account, worth something if a credit. */
  predicate Backed(l: Ledger, r: Row) {
    r.user in l.balances && (IsCredit(r.kind) ==> 0 < r.amount)
  }

  predicate AllBacked(l: Ledger) {
    forall i | 0 <= i < |l.rows| :: Backed(l, l.rows[i])
  }

  predicate ChecksFirst(rows: seq<Row>, r: Row) {
    r.kind == ChargebackDebit ==> r.actsOn.Some? && !ChargedBack(rows, r.actsOn.value)
  }

  /** At most one row more. */
  predicate Extends(l: Ledger, l': Ledger) {
    && l.balances.Keys <= l'.balances.Keys && l.rows <= l'.rows && |l'.rows| <= |l.rows| + 1
    && (|l'.rows| == |l.rows| + 1 ==> Backed(l', l'.rows[|l.rows|]))
  }

  /** And that row is no second chargeback of one credit. */
  predicate Moves(l: Ledger, l': Ledger) {
    Extends(l, l') && (|l'.rows| == |l.rows| + 1 ==> ChecksFirst(l.rows, l'.rows[|l.rows|]))
  }

  lemma OperationMoves(l: Ledger, op: Op, now: int)
    ensures Moves(l, Step(l, op, now))
  {
  }

  lemma PersistMoves(b: Books, postback: nat, plan: Plan, hold: nat, now: int)
    requires postback < |b.archive| && Persist(b, postback, plan, hold, now).Ok?
    ensures Moves(b.ledger, Persist(b, postback, plan, hold, now).value.ledger)
  {
    var id := |b.conversions|;
    var credits := PlanCredit(plan.status, plan.points, plan.reversalOf.Some?);
    if credits.credits {
      OperationMoves(b.ledger, DoCredit(plan.click.user, false, plan.points, FromConversion(id),
                                        if credits.holdIndefinitely then None else Some(hold)), now);
    } else if plan.reversalOf.Some? && FindBySource(b.ledger.rows, plan.reversalOf.value).Some? {
      OperationMoves(b.ledger, DoReverse(FindBySource(b.ledger.rows, plan.reversalOf.value).value, FromConversion(id)), now);
    }
  }

  lemma HoldReviewMoves(l: Ledger, cs: seq<Conversion>, id: nat, decision: Decision, now: int)
    requires ResolveHold(l, cs, id, decision, now).Ok?
    ensures Moves(l, ResolveHold(l, cs, id, decision, now).value.0)
  {
    var credit := FindBySource(l.rows, id);
    if credit.Some? {
      OperationMoves(l, if decision == Clear then DoMature(credit.value) else DoReverse(credit.value, FromSystem), now);
    }
  }

  lemma SubmitMoves(p: Platform, s: P.Submission, policy: P.Policy)
    ensures Moves(p.books.ledger, ApplySubmit(p, s, policy).books.ledger)
  {
    OperationMoves(p.books.ledger, DoLock(s.user, s.amount, |p.payouts|), p.clock);
  }

  lemma TransitionMoves(l: Ledger, ps: seq<P.Payout>, id: nat, read: P.Status, to: P.Status, review: P.Review, now: int)
    requires id < |ps| && P.Transition(l, ps, id, read, to, review, now).Ok?
    ensures Moves(l, P.Transition(l, ps, id, read, to, review, now).value.0)
  {
    OperationMoves(l, DoResolveLock(ps[id].lockId, P.LockEffectOf(read, to) == P.Settle), now);
  }

  lemma ReviewEndMoves(p: Platform, a: nat)
    requires Enabled(p, FinishReview(a))
    ensures Moves(p.books.ledger, ApplyFinish(p, a).books.ledger)
  {
    var x := p.reviews[a];
    if P.Transition(p.books.ledger, p.payouts, x.payout, x.read, x.to, x.review, p.clock).Ok? {
      TransitionMoves(p.books.ledger, p.payouts, x.payout, x.read, x.to, x.review, p.clock);
    }
  }

  predicate Pointed(e: Event) {
    e.Register? || e.GrantBonus? || e.Adjust? || e.SweepOne?
  }

  lemma PointedMoves(p: Platform, e: Event)
    requires Enabled(p, e) && Pointed(e)
    ensures Moves(p.books.ledger, Apply(p, e).books.ledger)
  {
    match e
    case Register(user) => OperationMoves(p.books.ledger, DoOpenAccount(user), p.clock);
    case GrantBonus(user, amount, hold) =>
      OperationMoves(p.books.ledger, DoCredit(user, true, amount, FromAdmin, hold), p.clock);
    case Adjust(user, amount) => OperationMoves(p.books.ledger, DoDebit(user, amount, FromAdmin), p.clock);
    case SweepOne(s) => OperationMoves(p.books.ledger, DoMature(p.sweeps[s][0]), p.clock);
  }

  lemma LedgerStays(p: Platform, e: Event)
    requires Enabled(p, e) && !Pointed(e)
    requires !e.PersistJob? && !e.ReviewHold? && !e.SubmitPayout? && !e.FinishReview?
    ensures Apply(p, e).books.ledger == p.books.ledger
  {
  }

  /** Every event of the platform checks and writes in one step. */
  lemma EventMoves(p: Platform, e: Event)
    requires Enabled(p, e)
    ensures Moves(p.books.ledger, Apply(p, e).books.ledger)
  {
    if e.PersistJob? {
      if Persist(p.books, p.jobs[e.worker].postback, p.jobs[e.worker].plan, e.holdDays, p.clock).Ok? {
        PersistMoves(p.books, p.jobs[e.worker].postback, p.jobs[e.worker].plan, e.holdDays, p.clock);
      }
    } else if e.ReviewHold? {
      if ResolveHold(p.books.ledger, p.books.conversions, e.conversion, e.decision, p.clock).Ok? {
        HoldReviewMoves(p.books.ledger, p.books.conversions, e.conversion, e.decision, p.clock);
      }
    } else if e.SubmitPayout? {
      SubmitMoves(p, e.submission, e.policy);
    } else if e.FinishReview? {
      ReviewEndMoves(p, e.admin);
    } else if Pointed(e) {
      PointedMoves(p, e);
    } else {
      LedgerStays(p, e);
    }
  }
}
