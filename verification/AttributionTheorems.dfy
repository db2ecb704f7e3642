/** What becomes of a postback: from what the provider reported and the fraud engine recommended to the rows stored. */
module AttributionTheorems {
  import opened Wrappers
  import opened Ledgers
  import opened LedgerInvariants
  import opened LedgerTheorems
  import opened PostbackIntakes
  import opened Conversions
  import opened ConversionInvariants
  import opened Platforms
  import opened PlatformInvariants
  import opened HoldTheorems

  // --- What the worker is given ---------------------------------------------

  /** Worker w has loaded postback i, whose click is the provider's own, in the configured currency, of a known user. */
  predicate Attributable(p: Platform, w: nat, i: nat, parsed: Parsed, click: Click, rates: Rates) {
    && w in p.jobs && p.jobs[w] == Loaded(i) && i < |p.books.archive|
    && click.provider == p.books.archive[i].provider && parsed.currency == rates.currency
    && click.user in p.books.ledger.balances
  }

  /** The floor of payout times rate times share. */
  function Priced(payout: int, rates: Rates): int {
    payout * rates.pointsPerMinor * rates.sharePercent / 100
  }

  /** Exactly one credit, of the priced points, for the conversion about to be stored. */
  predicate Credits(p: Platform, p': Platform, u: UserId, points: int, date: Option<int>) {
    var l, l', n := p.books.ledger, p'.books.ledger, |p.books.ledger.rows|;
    && Shifts(l, l', u, points, 0, 0) && Counts(l, l', u, points, 0, 0) && Adds(l, l', u, ConversionCredit, None)
    && l'.rows[n].amount == points && l'.rows[n].source == FromConversion(|p.books.conversions|)
    && l'.rows[n].maturesAt == date && l'.rows[n].at == p.clock
  }

  /** One conversion more, the last, the worker done and its postback PROCESSED. */
  predicate Records(p: Platform, p': Platform, w: nat, i: nat, c: Conversion) {
    && p'.books.conversions == p.books.conversions + [c]
    && w !in p'.jobs && |p'.books.archive| == |p.books.archive|
    && i < |p.books.archive| && p'.books.archive[i].state == Processed
    && forall k | 0 <= k < |p.books.archive| && k != i :: p'.books.archive[k] == p.books.archive[k]
  }

  predicate Suspected(active: bool, fraud: Option<FraudAction>) {
    !active || fraud == Some(FraudAction.Hold) || fraud == Some(ReviewAccount)
  }

  /** What is stored and moved for an original report. */
  predicate Decided(
    p: Platform, p': Platform, w: nat, i: nat, parsed: Parsed, click: Click, rates: Rates, active: bool, fraud: Option<FraudAction>,
    d: nat)
  {
    var points := Priced(parsed.payout, rates);
    var stored := (s: Status) =>
      Conversion(click.id, click.user, i, Original, s, parsed.payout, parsed.currency, points, None, false);
    var still := p'.books.ledger == p.books.ledger;
    match parsed.status
    case ProviderRejected => Records(p, p', w, i, stored(Status.Rejected)) && still
    case ProviderPending => Records(p, p', w, i, stored(Pending)) && still
    case Confirmed =>
      if active && fraud == Some(Block) then Records(p, p', w, i, stored(Status.Rejected)) && still
      else if Suspected(active, fraud) then
        Records(p, p', w, i, stored(Held)) && (if 0 < points then Credits(p, p', click.user, points, None) else still)
      else if 0 < points then
        Records(p, p', w, i, stored(Credited))
        && Credits(p, p', click.user, points, Some(p.clock + d * 86400000))
      else Records(p, p', w, i, stored(Attributed)) && still
  }

  // --- Originals --------------------------------------------------------------

  lemma AttributedOriginal(p: Platform, w: nat, i: nat, parsed: Parsed, click: Click, rates: Rates, active: bool, fraud: Option<FraudAction>)
    requires Attributable(p, w, i, parsed, click, rates) && !parsed.isReversal
    ensures var p' := ApplyAttribution(p, w, Readable(parsed, click), rates, active, fraud);
            && p' == p.(jobs := p'.jobs) && w in p'.jobs && p'.jobs[w].Ready? && p'.jobs[w].postback == i
            && var plan := p'.jobs[w].plan;
               && plan.click == click && plan.parsed == parsed && plan.points == Priced(parsed.payout, rates)
               && plan.reversalOf == None
               && plan.status == (if parsed.status.ProviderRejected? then Status.Rejected
                                  else if parsed.status.ProviderPending? then Pending
                                  else if active && fraud == Some(Block) then Status.Rejected
                                  else if Suspected(active, fraud) then Held
                                  else Attributed)
  {
  }

  lemma PersistedOriginal(p: Platform, w: nat, i: nat, parsed: Parsed, click: Click, rates: Rates, active: bool, fraud: Option<FraudAction>, d: nat)
    requires Attributable(p, w, i, parsed, click, rates) && !parsed.isReversal && !PostbackTaken(p.books.conversions, i)
    ensures var ready := ApplyAttribution(p, w, Readable(parsed, click), rates, active, fraud);
            && Enabled(ready, PersistJob(w, d))
            && Decided(p, ApplyPersist(ready, w, d), w, i, parsed, click, rates, active, fraud, d)
  {
    AttributedOriginal(p, w, i, parsed, click, rates, active, fraud);
    var ready := ApplyAttribution(p, w, Readable(parsed, click), rates, active, fraud);
    var plan := ready.jobs[w].plan;
    var credits := PlanCredit(plan.status, plan.points, false);
    if credits.credits {
      var hold := if credits.holdIndefinitely then None else Some(d);
      CreditIsPending(p.books.ledger, click.user, ConversionCredit, plan.points, FromConversion(|p.books.conversions|), hold, p.clock);
      CreditStoresItsDate(p.books.ledger, click.user, ConversionCredit, plan.points, FromConversion(|p.books.conversions|), hold, p.clock);
    }
  }

  /**
   A report nobody has recorded yet is decided as a whole, after any history. A provider's rejection or
   reservation is stored and moves nothing. Of what it confirmed, a block on an active account is
   REJECTED without a row; an inactive account, a hold and a review are HELD with an undated credit;
   anything else is CREDITED with the priced points, dated d days ahead.
   */
  lemma OriginalsAreDecided(
    es: seq<Event>, w: nat, i: nat, parsed: Parsed, click: Click, rates: Rates, active: bool, fraud: Option<FraudAction>, d: nat)
    requires Attributable(Reached(es), w, i, parsed, click, rates) && !parsed.isReversal
    requires !PostbackTaken(Reached(es).books.conversions, i)
    ensures var read := es + [AttributeJob(w, Readable(parsed, click), rates, active, fraud)];
            Decided(Reached(es), Reached(read + [PersistJob(w, d)]), w, i, parsed, click, rates, active, fraud, d)
  {
    var e := AttributeJob(w, Readable(parsed, click), rates, active, fraud);
    PersistedOriginal(Reached(es), w, i, parsed, click, rates, active, fraud, d);
    Extend(es, e);
    Extend(es + [e], PersistJob(w, d));
  }

  // --- Chargebacks --------------------------------------------------------------

  /** The original a chargeback with this payload can be about. */
  predicate Reports(c: Conversion, click: Click, parsed: Parsed) {
    c.kind == Original && c.status != Reversed && c.click == click.id && c.payout == parsed.payout && c.currency == parsed.currency
  }

  predicate OnlyReport(cs: seq<Conversion>, k: nat, click: Click, parsed: Parsed) {
    k < |cs| && Reports(cs[k], click, parsed) && forall j | 0 <= j < |cs| && Reports(cs[j], click, parsed) :: j == k
  }

  lemma AttributedChargeback(
    p: Platform, w: nat, i: nat, parsed: Parsed, click: Click, rates: Rates, active: bool, fraud: Option<FraudAction>, k: nat)
    requires Attributable(p, w, i, parsed, click, rates) && parsed.isReversal
    requires OnlyReport(p.books.conversions, k, click, parsed)
    ensures var p' := ApplyAttribution(p, w, Readable(parsed, click), rates, active, fraud);
            && p' == p.(jobs := p'.jobs) && w in p'.jobs && p'.jobs[w].Ready? && p'.jobs[w].postback == i
            && var plan := p'.jobs[w].plan;
               && plan.click == click && plan.parsed == parsed && plan.points == Priced(parsed.payout, rates)
               && plan.reversalOf == Some(k)
               && plan.status == (if parsed.status.ProviderRejected? then Status.Rejected
                                  else if parsed.status.ProviderPending? then Pending
                                  else if !active then Held
                                  else Attributed)
  {
    var cs := p.books.conversions;
    forall j | 0 <= j < |cs| ensures IsCandidate(cs[j], click.id, parsed) <==> Reports(cs[j], click, parsed) {
    }
    ReversalNeverGuesses(cs, p.books.archive[i].provider, parsed, click, rates, active, fraud, k);
  }

  /** The chargeback row, the original marked, and the original's points taken back if it had any. */
  predicate ChargesBack(p: Platform, p': Platform, w: nat, i: nat, parsed: Parsed, click: Click, rates: Rates, active: bool, k: nat)
    requires k < |p.books.conversions|
  {
    var cs, l, l' := p.books.conversions, p.books.ledger, p'.books.ledger;
    var credit := FindBySource(l.rows, k);
    var status := if parsed.status.ProviderRejected? then Status.Rejected
                  else if parsed.status.ProviderPending? then Pending
                  else if !active then Held
                  else Attributed;
    && p'.books.conversions
       == cs[k := cs[k].(status := Reversed)]
          + [Conversion(click.id, click.user, i, Reversal, status, parsed.payout, parsed.currency, Priced(parsed.payout, rates),
                        Some(k), false)]
    && w !in p'.jobs && |p'.books.archive| == |p.books.archive|
    && i < |p.books.archive| && p'.books.archive[i].state == Processed
    && (forall j | 0 <= j < |p.books.archive| && j != i :: p'.books.archive[j] == p.books.archive[j])
    && (credit.None? ==> l' == l)
    && (credit.Some? ==>
          && TakesBack(l, l', cs[k].user, cs[k].points, credit.value)
          && l'.rows[|l.rows|].source == FromConversion(|cs|))
  }

  lemma PersistedChargeback(
    p: Platform, w: nat, i: nat, parsed: Parsed, click: Click, rates: Rates, active: bool, fraud: Option<FraudAction>, k: nat, d: nat)
    requires Attributable(p, w, i, parsed, click, rates) && parsed.isReversal
    requires OnlyReport(p.books.conversions, k, click, parsed) && !PostbackTaken(p.books.conversions, i)
    requires Shaped(p.books.ledger) && p.books.conversions[k].status != Status.Rejected
    requires Agrees(p.books.ledger.rows, p.books.conversions[k], FindBySource(p.books.ledger.rows, k))
    ensures var ready := ApplyAttribution(p, w, Readable(parsed, click), rates, active, fraud);
            && Enabled(ready, PersistJob(w, d))
            && ChargesBack(p, ApplyPersist(ready, w, d), w, i, parsed, click, rates, active, k)
  {
    AttributedChargeback(p, w, i, parsed, click, rates, active, fraud, k);
    var l, n := p.books.ledger, |p.books.conversions|;
    var credit := FindBySource(l.rows, k);
    if credit.Some? {
      ReverseTakesPendingFirst(l, credit.value, FromConversion(n), p.clock);
    }
  }

  /**
   After any history a chargeback that can be about one conversion only is carried out against it: its
   row and the REVERSED original are stored, and the original's points are taken back, if it had been
   credited. A hold an admin rejected is the one kind of original this leaves out: there it fails.
   */
  lemma ChargebacksAreCarriedOut(
    es: seq<Event>, w: nat, i: nat, parsed: Parsed, click: Click, rates: Rates, active: bool, fraud: Option<FraudAction>, k: nat, d: nat)
    requires Attributable(Reached(es), w, i, parsed, click, rates) && parsed.isReversal
    requires OnlyReport(Reached(es).books.conversions, k, click, parsed) && !PostbackTaken(Reached(es).books.conversions, i)
    requires Reached(es).books.conversions[k].status != Status.Rejected
    ensures var read := es + [AttributeJob(w, Readable(parsed, click), rates, active, fraud)];
            ChargesBack(Reached(es), Reached(read + [PersistJob(w, d)]), w, i, parsed, click, rates, active, k)
  {
    var e := AttributeJob(w, Readable(parsed, click), rates, active, fraud);
    LedgerOf(es);
    AgreementOf(es, k);
    PersistedChargeback(Reached(es), w, i, parsed, click, rates, active, fraud, k, d);
    Extend(es, e);
    Extend(es + [e], PersistJob(w, d));
  }

  /**
   An original just recorded is the one its own chargeback is about: the one that reports the same click,
   payout and currency, unless an earlier row does too.
   */
  lemma RecordedOriginalsAreFound(
    p: Platform, p': Platform, w: nat, i: nat, parsed: Parsed, click: Click, rates: Rates, active: bool, fraud: Option<FraudAction>,
    d: nat, back: Parsed)
    requires Decided(p, p', w, i, parsed, click, rates, active, fraud, d)
    requires back.payout == parsed.payout && back.currency == parsed.currency
    requires forall j | 0 <= j < |p.books.conversions| :: !Reports(p.books.conversions[j], click, back)
    ensures OnlyReport(p'.books.conversions, |p.books.conversions|, click, back)
  {
  }

  // --- Refusals -----------------------------------------------------------------

  /** Nobody can tell whose this is, or what it reverses. */
  ghost predicate Unattributable(p: Platform, i: nat, reading: Reading, rates: Rates)
    requires i < |p.books.archive|
  {
    || reading.Unreadable?
    || reading.click.provider != p.books.archive[i].provider
    || reading.parsed.currency != rates.currency
    || reading.click.user !in p.books.ledger.balances
    || (reading.parsed.isReversal && !exists k: nat :: OnlyReport(p.books.conversions, k, reading.click, reading.parsed))
  }

  lemma AttributionRefused(p: Platform, w: nat, i: nat, reading: Reading, rates: Rates, active: bool, fraud: Option<FraudAction>)
    requires w in p.jobs && p.jobs[w] == Loaded(i) && i < |p.books.archive|
    ensures var p' := ApplyAttribution(p, w, reading, rates, active, fraud);
            && (Unattributable(p, i, reading, rates) <==> p' == p.(jobs := p.jobs[w := Ending(i, Quarantined)]))
            && (!Unattributable(p, i, reading, rates) <==> w in p'.jobs && p'.jobs[w].Ready?)
  {
    if reading.Readable? && Attributable(p, w, i, reading.parsed, reading.click, rates) {
      if !reading.parsed.isReversal {
        AttributedOriginal(p, w, i, reading.parsed, reading.click, rates, active, fraud);
      } else if exists k: nat :: OnlyReport(p.books.conversions, k, reading.click, reading.parsed) {
        var k: nat :| OnlyReport(p.books.conversions, k, reading.click, reading.parsed);
        AttributedChargeback(p, w, i, reading.parsed, reading.click, rates, active, fraud, k);
      } else {
        NobodyToReverse(p.books.conversions, reading.click, reading.parsed);
      }
    }
  }

  lemma NobodyToReverse(cs: seq<Conversion>, click: Click, parsed: Parsed)
    requires !exists k: nat :: OnlyReport(cs, k, click, parsed)
    ensures |Candidates(cs, click.id, parsed)| != 1
  {
    var found := Candidates(cs, click.id, parsed);
    if |found| == 1 {
      assert found[0] in found;
      forall j | 0 <= j < |cs| && Reports(cs[j], click, parsed) ensures j == found[0] {
        assert j in found;
      }
      assert OnlyReport(cs, found[0], click, parsed);
    }
  }

  /** A report is quarantined, with nothing stored and nothing moved, if and only if it cannot be attributed. */
  lemma QuarantinedIff(
    es: seq<Event>, w: nat, i: nat, reading: Reading, rates: Rates, active: bool, fraud: Option<FraudAction>)
    requires var p := Reached(es); w in p.jobs && p.jobs[w] == Loaded(i) && i < |p.books.archive|
    ensures var p := Reached(es);
            var p' := Reached(es + [AttributeJob(w, reading, rates, active, fraud)] + [MarkJob(w)]);
            && p'.books.ledger == p.books.ledger && p'.books.conversions == p.books.conversions
            && (Unattributable(p, i, reading, rates) ==>
                  && w !in p'.jobs && |p'.books.archive| == |p.books.archive| && p'.books.archive[i].state == Quarantined
                  && p'.books.archive[i].attempts == p.books.archive[i].attempts + 1
                  && forall k | 0 <= k < |p.books.archive| && k != i :: p'.books.archive[k] == p.books.archive[k])
            && (!Unattributable(p, i, reading, rates) ==> w in p'.jobs && p'.jobs[w].Ready? && p'.books.archive == p.books.archive)
  {
    var e := AttributeJob(w, reading, rates, active, fraud);
    AttributionRefused(Reached(es), w, i, reading, rates, active, fraud);
    Extend(es, e);
    NextAfter(es + [e], MarkJob(w));
  }
}
