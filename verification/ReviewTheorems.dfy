/** What admins' decisions about held conversions do, and what nothing undoes. */
module ReviewTheorems {
  import opened Wrappers
  import opened Ledgers
  import opened LedgerInvariants
  import opened PostbackIntakes
  import opened Conversions
  import opened ConversionInvariants
  import opened Platforms
  import opened PlatformInvariants
  import opened PlatformTheorems

  /** The m-th event is an admin clearing the hold of conversion k. */
  ghost predicate Clears(es: seq<Event>, m: nat, k: nat) {
    && m < |es| && es[m] == ReviewHold(k, Clear)
    && k < |Reached(es[..m]).books.conversions| && Reached(es[..m]).books.conversions[k].status == Held
  }

  ghost predicate WasCleared(es: seq<Event>, k: nat) {
    exists m: nat :: Clears(es, m, k)
  }

  lemma ClearedEarlier(es: seq<Event>, k: nat)
    requires es != [] && WasCleared(es[..|es| - 1], k)
    ensures WasCleared(es, k)
  {
    var m: nat :| Clears(es[..|es| - 1], m, k);
    assert es[..|es| - 1][..m] == es[..m];
    assert Clears(es, m, k);
  }

  /** The three things that can happen to a conversion row. */
  ghost predicate RowStep(p: Platform, e: Event, c: Conversion, c': Conversion, k: nat) {
    || c' == c
    || (c' == c.(status := Reversed) && ReverseRewardFor(p.books.ledger, k, |p.books.conversions|, p.clock).Ok?)
    || (e.ReviewHold? && e.conversion == k && c.status == Held
        && c' == c.(status := if e.decision == Clear then Credited else Status.Rejected, reviewed := true))
  }

  lemma PersistRowStep(p: Platform, w: nat, hold: nat, k: nat)
    requires Enabled(p, PersistJob(w, hold)) && k < |p.books.conversions| && JobsInv(p.jobs, p.books)
    ensures var p' := ApplyPersist(p, w, hold);
            k < |p'.books.conversions| && RowStep(p, PersistJob(w, hold), p.books.conversions[k], p'.books.conversions[k], k)
  {
    var job := p.jobs[w];
    assert JobOk(job, p.books);
    if Persist(p.books, job.postback, job.plan, hold, p.clock).Err? {
      RefusedPersist(p, w, hold);
    }
  }

  lemma EventRowStep(p: Platform, e: Event, k: nat)
    requires Enabled(p, e) && k < |p.books.conversions| && JobsInv(p.jobs, p.books)
    ensures var p' := Apply(p, e);
            k < |p'.books.conversions| && RowStep(p, e, p.books.conversions[k], p'.books.conversions[k], k)
  {
    if e.PersistJob? {
      PersistRowStep(p, e.worker, e.holdDays, k);
    }
  }

  lemma NewRowsAreUnreviewed(p: Platform, e: Event, k: nat)
    requires Enabled(p, e) && |p.books.conversions| <= k < |Apply(p, e).books.conversions| && JobsInv(p.jobs, p.books)
    ensures !Apply(p, e).books.conversions[k].reviewed
  {
    if e.PersistJob? {
      assert JobOk(p.jobs[e.worker], p.books);
      if Persist(p.books, p.jobs[e.worker].postback, p.jobs[e.worker].plan, e.holdDays, p.clock).Err? {
        RefusedPersist(p, e.worker, e.holdDays);
      }
    }
  }

  predicate RejectedForGood(c: Conversion) {
    c.status == Status.Rejected && c.reviewed && 0 < Worth(c)
  }

  predicate Stores(p: Platform, k: nat, c: Conversion) {
    k < |p.books.conversions| && p.books.conversions[k] == c
  }

  /** A rejected hold that was worth something keeps its row: its chargeback is refused and its hold is over. */
  lemma RejectedRowStays(es: seq<Event>, e: Event, k: nat, c: Conversion)
    requires Stores(Reached(es), k, c) && RejectedForGood(c)
    ensures Stores(Next(Reached(es), e), k, c)
  {
    var p := Reached(es);
    JobsOf(es);
    AgreementOf(es, k);
    ChargebackRefusedIff(es, k, p.clock);
    if Enabled(p, e) {
      EventRowStep(p, e, k);
    }
  }

  /** What an admin rejected stays REJECTED under every later event; a chargeback of it never commits. */
  lemma {:induction false} RejectedStaysRejected(es: seq<Event>, more: seq<Event>, k: nat, c: Conversion)
    requires Stores(Reached(es), k, c) && RejectedForGood(c)
    ensures Stores(Reached(es + more), k, c)
  {
    if more == [] {
      assert es + more == es;
    } else {
      var n := |more| - 1;
      RejectedStaysRejected(es, more[..n], k, c);
      RejectedRowStays(es + more[..n], more[n], k, c);
      OneMore(es, more);
    }
  }

  lemma ClearedRow(es: seq<Event>, e: Event, k: nat)
    requires var p' := Next(Reached(es), e);
             k < |p'.books.conversions| && Cleared(p'.books.conversions[k]) && 0 < Worth(p'.books.conversions[k])
    ensures k < |Reached(es).books.conversions|
    ensures var c := Reached(es).books.conversions[k];
            || (Cleared(c) && 0 < Worth(c))
            || (e == ReviewHold(k, Clear) && c.status == Held)
  {
    var p := Reached(es);
    JobsOf(es);
    if Enabled(p, e) {
      if k < |p.books.conversions| {
        EventRowStep(p, e, k);
        AgreementOf(es, k);
        ChargebackRefusedIff(es, k, p.clock);
      } else {
        NewRowsAreUnreviewed(p, e, k);
      }
    }
  }

  /** A cleared conversion that is worth something was cleared: some admin released it while it was HELD. */
  lemma {:induction false} ClearedByAnAdmin(es: seq<Event>, k: nat)
    requires k < |Reached(es).books.conversions|
    requires Cleared(Reached(es).books.conversions[k]) && 0 < Worth(Reached(es).books.conversions[k])
    ensures WasCleared(es, k)
  {
    if es != [] {
      var n := |es| - 1;
      ClearedRow(es[..n], es[n], k);
      var c := Reached(es[..n]).books.conversions[k];
      if Cleared(c) && 0 < Worth(c) {
        ClearedByAnAdmin(es[..n], k);
        ClearedEarlier(es, k);
      } else {
        assert Clears(es, n, k);
      }
    }
  }

  /**
   Over whole histories: a maturation whose credit's stored date had not come, or that has none,
   acts on the credit of a conversion whose hold an admin cleared while it was HELD.
   */
  lemma {:induction false} OnlyClearingReleasesAHold(es: seq<Event>, j: nat)
    requires j < |Reached(es).books.ledger.rows| && Reached(es).books.ledger.rows[j].kind.RewardMaturation?
    ensures var rows := Reached(es).books.ledger.rows;
            && ActsOnCredit(rows, j)
            && var credit := rows[rows[j].actsOn.value];
            || (credit.maturesAt.Some? && credit.maturesAt.value <= rows[j].at)
            || (credit.kind.ConversionCredit? && credit.source.FromConversion? && WasCleared(es, credit.source.conversion))
  {
    NoClockReleasesAHold(es, j);
    var b := Reached(es).books;
    var id := b.ledger.rows[j].actsOn.value;
    var credit := b.ledger.rows[id];
    if !(credit.maturesAt.Some? && credit.maturesAt.value <= b.ledger.rows[j].at) {
      var k := credit.source.conversion;
      CreditsOf(es);
      assert CreditIsConversion(b.ledger.rows, b.conversions, id);
      AgreementOf(es, k);
      ClearedByAnAdmin(es, k);
    }
  }
}
