/** What holds after any history of the platform, stated for a reader. */
module PlatformTheorems {
  import opened Wrappers
  import opened Sums
  import opened Ledgers
  import opened LedgerInvariants
  import opened PostbackIntakes
  import opened Conversions
  import opened ConversionInvariants
  import opened PayoutInvariants
  import opened Platforms
  import opened PlatformInvariants
  import opened PlatformMovements
  import P = Payouts

  // --- Withdrawals ----------------------------------------------------------

  /**
   Under any interleaving of submissions, admins and sweeps: what is locked is what is in
   flight, what was withdrawn is what was paid, and neither ever came from unmatured points.
   */
  lemma WithdrawalsAreCovered(es: seq<Event>, u: UserId)
    requires u in Reached(es).books.ledger.balances
    ensures var p := Reached(es);
            var b := p.books.ledger.balances[u];
            && 0 <= b.locked == SumTo(|p.payouts|, InFlightAt(p.payouts, u))
            && b.lifetime.withdrawn == SumTo(|p.payouts|, PaidAt(p.payouts, u))
            && b.locked + b.lifetime.withdrawn <= Total(p.books.ledger.rows, u, MaturedOf)
  {
    LedgerOf(es);
    PayoutsOf(es);
    AccountOf(es, u);
    LockedIsInFlight(Reached(es).books.ledger, Reached(es).payouts, u);
  }

  /** Every request holds one lock of its own, resolved once it has ended, settled iff it was paid. */
  lemma OneLockPerRequest(es: seq<Event>, p: nat)
    requires p < |Reached(es).payouts|
    ensures var s := Reached(es);
            var lock, status := s.payouts[p].lockId, s.payouts[p].status;
            && (Resolved(s.books.ledger.rows, lock) <==> P.IsTerminal(status))
            && (ActedOn(s.books.ledger.rows, lock, PayoutSettle) <==> status == P.Paid)
            && (forall i, j | 0 <= i < j < |s.books.ledger.rows| && s.books.ledger.rows[i].actsOn == Some(lock) ::
                  s.books.ledger.rows[j].actsOn != Some(lock))
            && (forall q | 0 <= q < |s.payouts| && q != p :: s.payouts[q].lockId != lock)
            && (status == P.Paid ==> p in s.executed)
  {
    LedgerOf(es);
    PayoutsOf(es);
    PaymentsOf(es);
    LocksResolveOnce(Reached(es).books.ledger, Reached(es).payouts, p);
  }

  /** Money out against points out, over a whole history of changing rates. */
  lemma CashOut(es: seq<Event>, u: UserId)
    requires u in Reached(es).books.ledger.balances
    ensures var p := Reached(es);
            var points, value := p.books.ledger.balances[u].lifetime.withdrawn, SumTo(|p.payouts|, PaidValueAt(p.payouts, u));
            && 100 * points - SumTo(|p.payouts|, PaidRateAt(p.payouts, u)) <= value <= 100 * points
            && ((exists i | 0 <= i < |p.payouts| :: p.payouts[i].user == u && p.payouts[i].status == P.Paid) ==>
                  100 * points - SumTo(|p.payouts|, PaidRateAt(p.payouts, u)) < value)
  {
    LedgerOf(es);
    PayoutsOf(es);
    CashOutBound(Reached(es).books.ledger, Reached(es).payouts, u);
  }

  /** Where a user's points are and where they came from, after any history of the platform. */
  lemma PointsAreAccountedFor(es: seq<Event>, u: UserId)
    requires u in Reached(es).books.ledger.balances
    ensures var l := Reached(es).books.ledger;
            var b := l.balances[u];
            && OpenCredits(l.rows, u) - LateReversals(l.rows, u) <= b.pending <= OpenCredits(l.rows, u)
            && b.pending + b.available + b.locked
               == b.lifetime.earned - b.lifetime.reversed - b.lifetime.withdrawn - Total(l.rows, u, DebitedOf)
  {
    AccountOf(es, u);
    LedgerOf(es);
    assert Conserved(Reached(es).books.ledger.rows, u);
  }

  // --- Conversions against the ledger ---------------------------------------

  function PointsAt(cs: seq<Conversion>, u: UserId): int -> int {
    i => if 0 <= i < |cs| && cs[i].user == u && cs[i].kind == Original && Stands(cs[i].status) then cs[i].points else 0
  }

  predicate NegativeStanding(c: Conversion, u: UserId) {
    c.user == u && c.kind == Original && Stands(c.status) && c.points < 0
  }

  /**
   A user's net points from conversions are the points of their standing conversions, exactly
   when none of those priced below zero: a worthless row can stand as HELD without a credit.
   */
  lemma NetIsStandingPoints(es: seq<Event>, u: UserId)
    ensures var p := Reached(es);
            Net(p.books.ledger.rows, u) == SumTo(|p.books.conversions|, PointsAt(p.books.conversions, u)) <==>
            !exists k | 0 <= k < |p.books.conversions| :: NegativeStanding(p.books.conversions[k], u)
  {
    ConversionsOf(es);
    StandingAgainstPoints(Reached(es).books.conversions, u);
  }

  lemma StandingAgainstPoints(cs: seq<Conversion>, u: UserId)
    ensures Standing(cs, u) == SumTo(|cs|, PointsAt(cs, u)) <==>
            !exists k | 0 <= k < |cs| :: NegativeStanding(cs[k], u)
  {
    if k :| 0 <= k < |cs| && NegativeStanding(cs[k], u) {
      SumStrict(|cs|, PointsAt(cs, u), StandingAt(cs, u), k);
    } else {
      SumAgrees(|cs|, PointsAt(cs, u), StandingAt(cs, u));
    }
  }

  /** What a conversion's status says about the credit it caused, after any history. */
  lemma StatusTellsTheCredit(es: seq<Event>, k: nat)
    requires k < |Reached(es).books.conversions|
    ensures var rows := Reached(es).books.ledger.rows;
            var c := Reached(es).books.conversions[k];
            var credit := FindBySource(rows, k);
            && (c.status == Pending || c.status == Attributed || c.kind == Reversal ==> credit.None?)
            && (c.status == Reversed || c.status == Rejected ==> credit.Some? ==> ChargedBack(rows, credit.value))
            && (c.status == Rejected ==> credit.Some? ==> c.reviewed && !Matured(rows, credit.value))
            && (c.status == Credited || c.status == Held ==>
                  (credit.Some? <==> 0 < Worth(c)) && (credit.Some? ==> !ChargedBack(rows, credit.value)))
            && (c.status == Held && credit.Some? ==>
                  !Matured(rows, credit.value) && rows[credit.value].maturesAt == None)
            && (c.status == Credited && c.reviewed && credit.Some? ==> Matured(rows, credit.value))
            && (credit.Some? ==> rows[credit.value].user == c.user && rows[credit.value].amount == c.points)
            && (forall j | 0 <= j < |rows| && rows[j].kind.ConversionCredit? && rows[j].source == FromConversion(k) ::
                  credit == Some(j))
  {
    var b := Reached(es).books;
    AgreementOf(es, k);
    CreditsOf(es);
    forall j | 0 <= j < |b.ledger.rows| && b.ledger.rows[j].kind.ConversionCredit? && b.ledger.rows[j].source == FromConversion(k)
      ensures FindBySource(b.ledger.rows, k) == Some(j)
    {
      assert CreditIsConversion(b.ledger.rows, b.conversions, j);
    }
  }

  /** An attribution that does not price below zero. */
  predicate PricesAtLeastZero(e: Event) {
    e.AttributeJob? && e.reading.Readable? ==> 0 <= e.reading.parsed.payout
  }

  ghost predicate NothingNegative(p: Platform) {
    && (forall k | 0 <= k < |p.books.conversions| :: 0 <= p.books.conversions[k].points)
    && (forall w | w in p.jobs && p.jobs[w].Ready? :: 0 <= p.jobs[w].plan.points)
  }

  lemma PointsKeepTheSign(payout: nat, rates: Rates)
    ensures 0 <= PointsFor(payout, rates)
  {
    assert 0 <= payout * rates.pointsPerMinor;
    assert 0 <= payout * rates.pointsPerMinor * rates.sharePercent;
  }

  lemma AttributionPrices(p: Platform, e: Event)
    requires e.AttributeJob? && Enabled(p, e) && NothingNegative(p) && PricesAtLeastZero(e)
    ensures NothingNegative(Apply(p, e))
  {
    if e.reading.Readable? {
      PointsKeepTheSign(e.reading.parsed.payout, e.rates);
    }
  }

  lemma PersistPrices(p: Platform, w: nat, hold: nat)
    requires NothingNegative(p) && Enabled(p, PersistJob(w, hold))
    ensures NothingNegative(ApplyPersist(p, w, hold))
  {
  }

  lemma NothingTurnsNegative(p: Platform, e: Event)
    requires NothingNegative(p) && Enabled(p, e) && PricesAtLeastZero(e)
    ensures NothingNegative(Apply(p, e))
  {
    if e.AttributeJob? {
      AttributionPrices(p, e);
    } else if e.PersistJob? {
      PersistPrices(p, e.worker, e.holdDays);
    }
  }

  lemma {:induction false} NoNegativePrices(es: seq<Event>)
    requires forall i | 0 <= i < |es| :: PricesAtLeastZero(es[i])
    ensures NothingNegative(Reached(es))
  {
    if es != [] {
      var n := |es| - 1;
      NoNegativePrices(es[..n]);
      if Enabled(Reached(es[..n]), es[n]) {
        NothingTurnsNegative(Reached(es[..n]), es[n]);
      }
    }
  }

  /** As long as no provider reports a payout below zero, a user's net points are those of their standing conversions. */
  lemma NetIsPointsWithoutNegativePayouts(es: seq<Event>, u: UserId)
    requires forall i | 0 <= i < |es| :: PricesAtLeastZero(es[i])
    ensures var p := Reached(es);
            Net(p.books.ledger.rows, u) == SumTo(|p.books.conversions|, PointsAt(p.books.conversions, u))
  {
    NoNegativePrices(es);
    NetIsStandingPoints(es, u);
  }

  // --- At most once ---------------------------------------------------------

  /**
   However often and however concurrently one provider transaction is delivered and processed, it
   has one archive row, at most one conversion and at most one credit; and every delivery beyond
   the first is on the row's duplicate count or about to be.
   */
  lemma AtMostOnce(es: seq<Event>, provider: nat, key: nat)
    ensures var p := Reached(es);
            match Find(p.books.archive, provider, key)
            case None => p.delivered[(provider, key)] == 0
            case Some(i) =>
              && p.delivered[(provider, key)] == 1 + p.books.archive[i].duplicates + p.uncounted[i]
              && (forall m | 0 <= m < |p.books.archive| && p.books.archive[m].provider == provider ::
                    p.books.archive[m].key == Some(key) ==> m == i)
              && (forall a, b | 0 <= a < b < |p.books.conversions| && p.books.conversions[a].postback == i ::
                    p.books.conversions[b].postback != i)
              && (forall x: nat, y: nat | CreditsPostback(p.books, x, i) && CreditsPostback(p.books, y, i) :: x == y)
  {
    ArchiveOf(es);
    CreditsOf(es);
    var p := Reached(es);
    var found := Find(p.books.archive, provider, key);
    assert OnlySeenArchived(p.books.archive, p.delivered, provider, key);
    if found.Some? {
      assert RowCounted(p.books.archive, p.delivered, p.uncounted, found.value);
      forall x: nat, y: nat | CreditsPostback(p.books, x, found.value) && CreditsPostback(p.books, y, found.value)
        ensures x == y
      {
        OneCreditPerPostback(p.books, found.value, x, y);
      }
    }
  }

  predicate CreditsPostback(b: Books, row: nat, postback: nat) {
    && row < |b.ledger.rows| && b.ledger.rows[row].kind.ConversionCredit?
    && b.ledger.rows[row].source.FromConversion? && b.ledger.rows[row].source.conversion < |b.conversions|
    && b.conversions[b.ledger.rows[row].source.conversion].postback == postback
  }

  lemma OneCreditPerPostback(b: Books, postback: nat, x: nat, y: nat)
    requires CreditsAreConversions(b.ledger.rows, b.conversions) && Recorded(b.archive, b.conversions)
    requires CreditsPostback(b, x, postback) && CreditsPostback(b, y, postback)
    ensures x == y
  {
    assert CreditIsConversion(b.ledger.rows, b.conversions, x);
    assert CreditIsConversion(b.ledger.rows, b.conversions, y);
  }

  // --- Maturation -----------------------------------------------------------

  /** The maturation or chargeback of a credit, seen from the row that performs it. */
  predicate ActsOnCredit(rows: seq<Row>, j: nat) {
    j < |rows| && rows[j].actsOn.Some? && rows[j].actsOn.value < j && IsCredit(rows[rows[j].actsOn.value].kind)
  }

  /**
   No clock releases a hold: a maturation acts on a credit whose stored date had come, or on the
   credit of a conversion whose hold an admin cleared. No credit matures twice, or after a chargeback.
   */
  lemma {:induction false} NoClockReleasesAHold(es: seq<Event>, j: nat)
    requires j < |Reached(es).books.ledger.rows| && Reached(es).books.ledger.rows[j].kind.RewardMaturation?
    ensures var rows := Reached(es).books.ledger.rows;
            && ActsOnCredit(rows, j) && rows[j].user == rows[rows[j].actsOn.value].user
            && var credit := rows[rows[j].actsOn.value];
            && (|| (credit.maturesAt.Some? && credit.maturesAt.value <= rows[j].at)
                || AdminCleared(Reached(es).books.conversions, credit))
            && (forall i | 0 <= i < j :: rows[i].actsOn != rows[j].actsOn)
            && (forall i | j < i < |rows| && rows[i].actsOn == rows[j].actsOn :: rows[i].kind.ChargebackDebit?)
  {
    LedgerOf(es);
    ConversionsOf(es);
    var b := Reached(es).books;
    assert WellFormed(b.ledger.rows, j);
    assert Justified(b.ledger.rows, b.conversions, j);
  }

  predicate AdminCleared(cs: seq<Conversion>, credit: Row) {
    credit.kind.ConversionCredit? && credit.source.FromConversion?
    && credit.source.conversion < |cs| && Cleared(cs[credit.source.conversion])
  }

  /**
   No row is ever changed or removed, so a credit keeps the maturity it was given whatever the
   hold period is set to later.
   */
  lemma {:induction false} HistoryIsPermanent(es: seq<Event>, k: nat)
    requires k <= |es|
    ensures Reached(es[..k]).books.ledger.rows <= Reached(es).books.ledger.rows
  {
    if k < |es| {
      var n := |es| - 1;
      HistoryIsPermanent(es[..n], k);
      assert es[..n][..k] == es[..k];
      if Enabled(Reached(es[..n]), es[n]) {
        EventMoves(Reached(es[..n]), es[n]);
      }
    } else {
      assert es[..k] == es;
    }
  }

  // --- Chargebacks the ledger refuses ---------------------------------------

  /**
   A planned chargeback is refused exactly when its original's credit was already taken back,
   which its status tells: REVERSED, or REJECTED by an admin with a credit. Attribution filters
   out the first and not the second, so a chargeback of a rejected hold always ends FAILED.
   */
  lemma ChargebackRefusedIff(es: seq<Event>, target: nat, now: int)
    requires target < |Reached(es).books.conversions|
    ensures var b := Reached(es).books;
            var moved := ReverseRewardFor(b.ledger, target, |b.conversions|, now);
            && (moved.Err? <==>
                  var c := b.conversions[target];
                  && FindBySource(b.ledger.rows, target).Some?
                  && (c.status == Reversed || c.status == Rejected))
            && (moved.Err? ==> moved.error == InvalidOperation)
  {
    var b := Reached(es).books;
    var credit := FindBySource(b.ledger.rows, target);
    AgreementOf(es, target);
    LedgerOf(es);
    if credit.Some? {
      OnlyCreditsPay(b.ledger.rows, credit.value);
    }
  }

  /** The review that rejects a paid-for hold makes every later chargeback of it fail. */
  lemma RejectedHoldsCannotBeChargedBack(es: seq<Event>, postback: nat, plan: Plan, hold: nat, now: int)
    requires var b := Reached(es).books;
             && postback < |b.archive| && plan.reversalOf.Some? && plan.reversalOf.value < |b.conversions|
             && var c := b.conversions[plan.reversalOf.value];
             && c.status == Rejected && c.reviewed && 0 < Worth(c)
    ensures Persist(Reached(es).books, postback, plan, hold, now) == Err(InvalidOperation)
  {
    AgreementOf(es, plan.reversalOf.value);
    ChargebackRefusedIff(es, plan.reversalOf.value, now);
  }

  /** A refused persist, marked: the postback says FAILED and the conversions are as they were. */
  lemma RefusedThenMarked(p: Platform, w: nat, hold: nat)
    requires w in p.jobs && p.jobs[w].Ready? && p.jobs[w].postback < |p.books.archive|
    requires var refusal := Persist(p.books, p.jobs[w].postback, p.jobs[w].plan, hold, p.clock);
             refusal.Err? && refusal.error != UniqueViolation
    ensures var p' := Next(Next(p, PersistJob(w, hold)), MarkJob(w));
            && |p'.books.archive| == |p.books.archive|
            && p'.books.archive[p.jobs[w].postback].state == PostbackState.Failed
            && p'.books.conversions == p.books.conversions
  {
  }

  /**
   Two workers on one chargeback: a loser whose transaction starts after the winner's commit finds
   the credit already taken back before it meets the unique index, so it fails instead of reporting
   the winner, and its mark overwrites the winner's PROCESSED with FAILED although the conversion is
   there.
   */
  lemma ReversalRaceLoserOverwrites(es: seq<Event>, w: nat, hold: nat)
    requires var p := Reached(es);
             && w in p.jobs && p.jobs[w].Ready? && p.jobs[w].postback < |p.books.archive|
             && PostbackTaken(p.books.conversions, p.jobs[w].postback)
             && var target := p.jobs[w].plan.reversalOf;
             && target.Some? && target.value < |p.books.conversions|
             && p.books.conversions[target.value].status == Reversed
             && FindBySource(p.books.ledger.rows, target.value).Some?
    ensures var i := Reached(es).jobs[w].postback;
            var p' := Reached(es + [PersistJob(w, hold), MarkJob(w)]);
            && i < |p'.books.archive| && p'.books.archive[i].state == PostbackState.Failed
            && PostbackTaken(p'.books.conversions, i)
  {
    ChargebackRefusedIff(es, Reached(es).jobs[w].plan.reversalOf.value, Reached(es).clock);
    RefusedThenMarked(Reached(es), w, hold);
    TwoMore(es, PersistJob(w, hold), MarkJob(w));
  }
}
