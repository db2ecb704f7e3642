/** What deciding a hold does to the points it held back, and how long a hold lasts. */
module HoldTheorems {
  import opened Wrappers
  import opened Ledgers
  import opened LedgerInvariants
  import opened LedgerTheorems
  import opened PostbackIntakes
  import opened Conversions
  import opened ConversionInvariants
  import opened Platforms
  import opened PlatformInvariants
  import opened PlatformMovements
  import opened PlatformTheorems
  import opened ReviewTheorems

  // --- Deciding a hold ------------------------------------------------------

  lemma AfterReview(es: seq<Event>, k: nat, decision: Decision)
    ensures Reached(es + [ReviewHold(k, decision)]) == ApplyReviewHold(Reached(es), k, decision)
  {
    Extend(es, ReviewHold(k, decision));
  }

  /** Only conversion k is restated, and nothing but the ledger moves with it. */
  predicate Decides(p: Platform, p': Platform, k: nat, status: Status) {
    && k < |p.books.conversions|
    && p'.books.conversions == p.books.conversions[k := p.books.conversions[k].(status := status, reviewed := true)]
    && p'.books.archive == p.books.archive && p'.payouts == p.payouts && p'.clock == p.clock
  }

  /** The maturation of credit `id` alone. */
  predicate Releases(l: Ledger, l': Ledger, u: UserId, points: int, id: nat, now: int) {
    && Shifts(l, l', u, -points, points, 0) && Counts(l, l', u, 0, 0, 0)
    && Adds(l, l', u, RewardMaturation, Some(id)) && l'.rows[|l.rows|].at == now
  }

  /** The chargeback of credit `id` alone. */
  predicate TakesBack(l: Ledger, l': Ledger, u: UserId, points: int, id: nat) {
    && TakesPendingFirst(l, l', u, points) && Counts(l, l', u, 0, 0, points)
    && Adds(l, l', u, ChargebackDebit, Some(id))
  }

  lemma ClearedHold(p: Platform, k: nat)
    requires Shaped(p.books.ledger) && k < |p.books.conversions| && p.books.conversions[k].status == Held
    requires Agrees(p.books.ledger.rows, p.books.conversions[k], FindBySource(p.books.ledger.rows, k))
    ensures var p', c, credit := ApplyReviewHold(p, k, Clear), p.books.conversions[k], FindBySource(p.books.ledger.rows, k);
            && Decides(p, p', k, Credited)
            && (credit.Some? <==> 0 < Worth(c))
            && (credit.None? ==> p'.books.ledger == p.books.ledger)
            && (credit.Some? ==> Releases(p.books.ledger, p'.books.ledger, c.user, c.points, credit.value, p.clock))
  {
    var credit := FindBySource(p.books.ledger.rows, k);
    if credit.Some? {
      MatureReleases(p.books.ledger, credit.value, p.clock);
    }
  }

  lemma RejectedHold(p: Platform, k: nat)
    requires Shaped(p.books.ledger) && k < |p.books.conversions| && p.books.conversions[k].status == Held
    requires Agrees(p.books.ledger.rows, p.books.conversions[k], FindBySource(p.books.ledger.rows, k))
    ensures var p', c := ApplyReviewHold(p, k, Decision.Reject), p.books.conversions[k];
            var credit := FindBySource(p.books.ledger.rows, k);
            && Decides(p, p', k, Status.Rejected)
            && (credit.Some? <==> 0 < Worth(c))
            && (credit.None? ==> p'.books.ledger == p.books.ledger)
            && (credit.Some? ==> TakesBack(p.books.ledger, p'.books.ledger, c.user, c.points, credit.value))
  {
    var credit := FindBySource(p.books.ledger.rows, k);
    if credit.Some? {
      ReverseTakesPendingFirst(p.books.ledger, credit.value, FromSystem, p.clock);
    }
  }

  /**
   Clearing a hold moves exactly the conversion's points from `pending` to `available`, by a maturation
   of its credit; a held conversion that was worth nothing moves none.
   */
  lemma ClearingReleasesThePoints(es: seq<Event>, k: nat)
    requires k < |Reached(es).books.conversions| && Reached(es).books.conversions[k].status == Held
    ensures var p, p' := Reached(es), Reached(es + [ReviewHold(k, Clear)]);
            var l, l', c := p.books.ledger, p'.books.ledger, p.books.conversions[k];
            var credit := FindBySource(l.rows, k);
            && Decides(p, p', k, Credited)
            && (credit.Some? <==> 0 < Worth(c))
            && (credit.None? ==> l' == l)
            && (credit.Some? ==> Releases(l, l', c.user, c.points, credit.value, p.clock))
  {
    AfterReview(es, k, Clear);
    AgreementOf(es, k);
    LedgerOf(es);
    ClearedHold(Reached(es), k);
  }

  /** Rejecting one takes its points back, from `pending` first. */
  lemma RejectingTakesThePointsBack(es: seq<Event>, k: nat)
    requires k < |Reached(es).books.conversions| && Reached(es).books.conversions[k].status == Held
    ensures var p, p' := Reached(es), Reached(es + [ReviewHold(k, Decision.Reject)]);
            var l, l', c := p.books.ledger, p'.books.ledger, p.books.conversions[k];
            var credit := FindBySource(l.rows, k);
            && Decides(p, p', k, Status.Rejected)
            && (credit.Some? <==> 0 < Worth(c))
            && (credit.None? ==> l' == l)
            && (credit.Some? ==> TakesBack(l, l', c.user, c.points, credit.value))
  {
    AfterReview(es, k, Decision.Reject);
    AgreementOf(es, k);
    LedgerOf(es);
    RejectedHold(Reached(es), k);
  }

  /** Anything but a HELD conversion is refused: the decision changes nothing at all. */
  lemma OnlyHoldsAreDecided(es: seq<Event>, k: nat, decision: Decision)
    requires k < |Reached(es).books.conversions| ==> Reached(es).books.conversions[k].status != Held
    ensures Reached(es + [ReviewHold(k, decision)]) == Reached(es)
  {
    AfterReview(es, k, decision);
  }

  // --- How long a hold lasts --------------------------------------------------

  /** The m-th event writes row `id`, a credit held for d days. */
  ghost predicate GivenAt(es: seq<Event>, m: nat, id: nat, d: nat) {
    && m < |es| && Enabled(Reached(es[..m]), es[m]) && |Reached(es[..m]).books.ledger.rows| == id
    && ((es[m].GrantBonus? && es[m].hold == Some(d)) || (es[m].PersistJob? && es[m].holdDays == d))
  }

  /** A dated credit comes from a bonus or a conversion, and its date from the days it is held. */
  ghost predicate DatedBy(p: Platform, e: Event, r: Row) {
    || (e.GrantBonus? && e.hold.Some? && r.maturesAt == Some(p.clock + e.hold.value * 86400000))
    || (e.PersistJob? && r.maturesAt == Some(p.clock + e.holdDays * 86400000))
  }

  lemma PersistDates(b: Books, postback: nat, plan: Plan, d: nat, now: int)
    requires postback < |b.archive| && Persist(b, postback, plan, d, now).Ok?
    ensures var rows, n := Persist(b, postback, plan, d, now).value.ledger.rows, |b.ledger.rows|;
            n < |rows| && rows[n].maturesAt.Some? ==> rows[n].maturesAt == Some(now + d * 86400000)
  {
    var id := |b.conversions|;
    var credits := PlanCredit(plan.status, plan.points, plan.reversalOf.Some?);
    if credits.credits {
      CreditStoresItsDate(b.ledger, plan.click.user, ConversionCredit, plan.points, FromConversion(id),
                          if credits.holdIndefinitely then None else Some(d), now);
    }
  }

  lemma OnlyCreditsAreDated(p: Platform, e: Event)
    requires Enabled(p, e) && !e.PersistJob? && !e.GrantBonus?
    ensures var rows, n := Apply(p, e).books.ledger.rows, |p.books.ledger.rows|;
            n < |rows| ==> rows[n].maturesAt == None
  {
    if Pointed(e) || e.ReviewHold? || e.SubmitPayout? || e.FinishReview? {
    } else {
      LedgerStays(p, e);
    }
  }

  lemma NewDates(p: Platform, e: Event)
    requires Enabled(p, e)
    ensures var rows, n := Apply(p, e).books.ledger.rows, |p.books.ledger.rows|;
            n < |rows| && rows[n].maturesAt.Some? ==> DatedBy(p, e, rows[n])
  {
    if e.PersistJob? {
      var job := p.jobs[e.worker];
      if Persist(p.books, job.postback, job.plan, e.holdDays, p.clock).Ok? {
        PersistDates(p.books, job.postback, job.plan, e.holdDays, p.clock);
      } else {
        RefusedPersist(p, e.worker, e.holdDays);
      }
    } else if e.GrantBonus? {
      if Credit(p.books.ledger, e.user, Bonus, e.amount, FromAdmin, e.hold, p.clock).Ok? {
        CreditStoresItsDate(p.books.ledger, e.user, Bonus, e.amount, FromAdmin, e.hold, p.clock);
      }
    } else {
      OnlyCreditsAreDated(p, e);
    }
  }

  /** A dated row was dated before the event, or by it. */
  lemma DateStep(p: Platform, e: Event, id: nat)
    requires id < |Next(p, e).books.ledger.rows| && Next(p, e).books.ledger.rows[id].maturesAt.Some?
    ensures var rows, rows' := p.books.ledger.rows, Next(p, e).books.ledger.rows;
            if id < |rows| then rows'[id] == rows[id] else id == |rows| && Enabled(p, e) && DatedBy(p, e, rows'[id])
  {
    if Enabled(p, e) {
      EventMoves(p, e);
      NewDates(p, e);
    }
  }

  /** The k-th event dated a row, or found it dated. */
  lemma DatedAt(es: seq<Event>, k: nat, id: nat)
    requires k < |es|
    requires id < |Reached(es[..k + 1]).books.ledger.rows| && Reached(es[..k + 1]).books.ledger.rows[id].maturesAt.Some?
    ensures var p, rows' := Reached(es[..k]), Reached(es[..k + 1]).books.ledger.rows;
            if id < |p.books.ledger.rows| then rows'[id] == p.books.ledger.rows[id]
            else id == |p.books.ledger.rows| && Enabled(p, es[k]) && DatedBy(p, es[k], rows'[id])
  {
    assert es[..k + 1] == es[..k] + [es[k]];
    NextAfter(es[..k], es[k]);
    DateStep(Reached(es[..k]), es[k], id);
  }

  /** Every stored date goes back to the event that set it. */
  lemma {:induction false} DateWasGiven(es: seq<Event>, k: nat, id: nat) returns (m: nat, d: nat)
    requires k <= |es|
    requires id < |Reached(es[..k]).books.ledger.rows| && Reached(es[..k]).books.ledger.rows[id].maturesAt.Some?
    ensures GivenAt(es, m, id, d)
    ensures Reached(es[..k]).books.ledger.rows[id].maturesAt == Some(Reached(es[..m]).clock + d * 86400000)
  {
    if k == 0 {
      NothingAtFirst(es);
    } else {
      DatedAt(es, k - 1, id);
      if id < |Reached(es[..k - 1]).books.ledger.rows| {
        m, d := DateWasGiven(es, k - 1, id);
      } else {
        m := k - 1;
        d := if es[m].GrantBonus? then es[m].hold.value else es[m].holdDays;
      }
    }
  }

  lemma NothingAtFirst(es: seq<Event>)
    ensures Reached(es[..0]).books.ledger.rows == []
  {
    assert es[..0] == [];
  }

  /** The credit was written held for d days, which had passed by `now`. */
  ghost predicate HeldLongEnough(es: seq<Event>, id: nat, now: int) {
    exists m: nat, d: nat :: GivenAt(es, m, id, d) && Reached(es[..m]).clock + d * 86400000 <= now
  }

  /**
   Over whole histories: a maturation comes no earlier than d days after the event that wrote its credit
   with a hold of d days, unless an admin cleared the conversion it paid while it was HELD.
   */
  lemma HoldPeriodsAreKept(es: seq<Event>, j: nat)
    requires j < |Reached(es).books.ledger.rows| && Reached(es).books.ledger.rows[j].kind.RewardMaturation?
    ensures var rows := Reached(es).books.ledger.rows;
            && ActsOnCredit(rows, j)
            && var id := rows[j].actsOn.value;
               || HeldLongEnough(es, id, rows[j].at)
               || (rows[id].kind.ConversionCredit? && rows[id].source.FromConversion?
                   && WasCleared(es, rows[id].source.conversion))
  {
    OnlyClearingReleasesAHold(es, j);
    var rows := Reached(es).books.ledger.rows;
    var id := rows[j].actsOn.value;
    if rows[id].maturesAt.Some? && rows[id].maturesAt.value <= rows[j].at {
      assert es[..|es|] == es;
      var m, d := DateWasGiven(es, |es|, id);
      assert GivenAt(es, m, id, d);
    }
  }
}
