/** The invariants of the money machine, over every run. */
module PlatformInvariants {
  import opened Wrappers
  import opened Sums
  import opened Ledgers
  import opened LedgerInvariants
  import opened RewardAccountings
  import opened PostbackIntakes
  import opened Conversions
  import opened ConversionInvariants
  import opened PayoutInvariants
  import opened Platforms
  import P = Payouts

  /** Every delivery of a row's key is the row itself, on its duplicate count, or waiting to be counted. */
  ghost predicate RowCounted(archive: seq<Postback>, delivered: multiset<(nat, nat)>, uncounted: multiset<nat>, i: nat)
    requires i < |archive|
  {
    archive[i].key.Some? ==>
      delivered[(archive[i].provider, archive[i].key.value)] == 1 + archive[i].duplicates + uncounted[i]
  }

  ghost predicate OnlySeenArchived(archive: seq<Postback>, delivered: multiset<(nat, nat)>, provider: nat, key: nat) {
    Find(archive, provider, key).None? ==> delivered[(provider, key)] == 0
  }

  /** One archive row per key, and every delivery of it accounted for. */
  ghost predicate Answered(archive: seq<Postback>, delivered: multiset<(nat, nat)>, uncounted: multiset<nat>) {
    && KeysUnique(archive)
    && (forall i | 0 <= i < |archive| :: RowCounted(archive, delivered, uncounted, i))
    && (forall provider: nat, key: nat :: OnlySeenArchived(archive, delivered, provider, key))
    && (forall i | i in uncounted :: i < |archive| && archive[i].key.Some?)
  }

  /** One conversion per postback, and one there for every postback marked processed. */
  ghost predicate Recorded(archive: seq<Postback>, cs: seq<Conversion>) {
    && (forall i, j | 0 <= i < j < |cs| :: cs[i].postback != cs[j].postback)
    && (forall i | 0 <= i < |cs| :: cs[i].postback < |archive|)
    && (forall i | 0 <= i < |archive| && archive[i].state == Processed :: PostbackTaken(cs, i))
  }

  /** A plan's status is one attribution can produce; a chargeback's target exists. */
  ghost predicate PlanOk(plan: Plan, b: Books) {
    && plan.click.user in b.ledger.balances
    && (plan.status == Pending || plan.status == Attributed || plan.status == Held || plan.status == Rejected)
    && (plan.reversalOf.Some? ==> plan.reversalOf.value < |b.conversions|)
  }

  ghost predicate JobOk(job: Job, b: Books) {
    && job.postback < |b.archive|
    && (job.Ready? ==> PlanOk(job.plan, b))
    && (job.Ending? ==> job.outcome == Quarantined || job.outcome == Failed)
  }

  ghost predicate JobsInv(jobs: map<nat, Job>, b: Books) {
    forall w | w in jobs :: JobOk(jobs[w], b)
  }

  /** The status a locked row showed is still its status; only payments that ran are marked paid. */
  ghost predicate ReviewsInv(p: Platform) {
    && (forall a | a in p.reviews ::
          var x := p.reviews[a];
          x.payout < |p.payouts| && x.read == p.payouts[x.payout].status && (x.to == P.Paid ==> x.payout in p.executed))
    && (forall a, b | a in p.reviews && b in p.reviews && a != b :: p.reviews[a].payout != p.reviews[b].payout)
    && (forall i | 0 <= i < |p.payouts| && p.payouts[i].status == P.Paid :: i in p.executed)
    && (forall a | a in p.settlements && p.settlements[a].paid :: p.settlements[a].payout in p.executed)
  }

  ghost predicate SweepsInv(p: Platform) {
    forall s | s in p.sweeps :: forall i | 0 <= i < |p.sweeps[s]| :: Due(p.books.ledger.rows, p.clock, p.sweeps[s][i])
  }

  predicate Due(rows: seq<Row>, now: int, id: nat) {
    id < |rows| && IsCredit(rows[id].kind) && rows[id].maturesAt.Some? && rows[id].maturesAt.value <= now
  }

  ghost predicate MoneyInv(l: Ledger, cs: seq<Conversion>, ps: seq<P.Payout>) {
    Inv(l) && ConversionInv(l.rows, cs) && PayoutInv(l.rows, ps)
  }

  ghost predicate PlatformInv(p: Platform) {
    && MoneyInv(p.books.ledger, p.books.conversions, p.payouts)
    && Answered(p.books.archive, p.delivered, p.uncounted)
    && Recorded(p.books.archive, p.books.conversions)
    && JobsInv(p.jobs, p.books)
    && ReviewsInv(p)
    && SweepsInv(p)
  }

  // --- Money moves ----------------------------------------------------------

  lemma UnrelatedMove(l: Ledger, r: Row, cs: seq<Conversion>, ps: seq<P.Payout>)
    requires MoneyInv(l, cs, ps) && Admissible(l, r) && Unrelated(l.rows, r) && !TouchesLocks(r.kind)
    ensures MoneyInv(Write(l, r, LifetimeOf(r)), cs, ps)
  {
    WritePreserves(l, r);
    UnrelatedMovesKeepConversions(l, r, cs);
    OtherMovesKeepPayouts(l, r, ps);
  }

  lemma RegisterKeepsMoney(l: Ledger, cs: seq<Conversion>, ps: seq<P.Payout>, user: UserId)
    requires MoneyInv(l, cs, ps)
    ensures MoneyInv(OpenAccount(l, user), cs, ps)
  {
    OpenAccountPreserves(l, user);
  }

  lemma BonusKeepsMoney(l: Ledger, cs: seq<Conversion>, ps: seq<P.Payout>, user: UserId, amount: int, hold: Option<nat>, now: int)
    requires MoneyInv(l, cs, ps) && Credit(l, user, Bonus, amount, FromAdmin, hold, now).Ok?
    ensures MoneyInv(Credit(l, user, Bonus, amount, FromAdmin, hold, now).value, cs, ps)
  {
    CreditWrites(l, user, Bonus, amount, FromAdmin, hold, now);
    UnrelatedMove(l, Row(user, Bonus, amount, amount, 0, 0, FromAdmin, None, MaturityOf(hold, now), now), cs, ps);
  }

  lemma AdjustKeepsMoney(l: Ledger, cs: seq<Conversion>, ps: seq<P.Payout>, user: UserId, amount: int, now: int)
    requires MoneyInv(l, cs, ps) && Debit(l, user, amount, FromAdmin, now).Ok?
    ensures MoneyInv(Debit(l, user, amount, FromAdmin, now).value, cs, ps)
  {
    DebitWrites(l, user, amount, FromAdmin, now);
    UnrelatedMove(l, Row(user, ManualAdjustment, -amount, 0, -amount, 0, FromAdmin, None, None, now), cs, ps);
  }

  lemma SweepKeepsMoney(l: Ledger, cs: seq<Conversion>, ps: seq<P.Payout>, id: nat, now: int)
    requires MoneyInv(l, cs, ps) && Due(l.rows, now, id)
    ensures Mature(l, id, now).Ok?
    ensures MoneyInv(Mature(l, id, now).value, cs, ps) && l.rows <= Mature(l, id, now).value.rows
  {
    if !Matured(l.rows, id) && !ChargedBack(l.rows, id) {
      MatureWrites(l, id, now);
      var r := Mature(l, id, now).value.rows[|l.rows|];
      assert r.at == now;
      UnrelatedMove(l, r, cs, ps);
    }
  }

  /** A lock, settle or refund is about no conversion. */
  lemma LockMoveKeeps(l: Ledger, l': Ledger, r: Row, cs: seq<Conversion>)
    requires Inv(l) && Writes(l, l', r) && TouchesLocks(r.kind) && ConversionInv(l.rows, cs)
    ensures Inv(l') && ConversionInv(l'.rows, cs) && Grows(l, l')
  {
    WritePreserves(l, r);
    UnrelatedMovesKeepConversions(l, r, cs);
  }

  ghost predicate Grows(l: Ledger, l': Ledger) {
    l.rows <= l'.rows && l.balances.Keys <= l'.balances.Keys
  }

  lemma SubmitKeepsMoney(l: Ledger, cs: seq<Conversion>, ps: seq<P.Payout>, s: P.Submission, policy: P.Policy, now: int)
    requires MoneyInv(l, cs, ps) && P.Submit(l, ps, s, policy, now).Ok?
    ensures var (l', ps') := P.Submit(l, ps, s, policy, now).value;
            && MoneyInv(l', cs, ps') && Grows(l, l')
            && |ps'| == |ps| + 1 && ps <= ps' && ps'[|ps|].status == P.PendingReview
  {
    SubmitKeepsPayouts(l, ps, s, policy, now);
    LockWrites(l, s.user, s.amount, |ps|, now);
    var l' := Lock(l, s.user, s.amount, |ps|, now).value;
    LockMoveKeeps(l, l', l'.rows[|l.rows|], cs);
  }

  lemma ResolutionKeepsLedger(l: Ledger, cs: seq<Conversion>, id: nat, settling: bool, now: int)
    requires Inv(l) && ConversionInv(l.rows, cs) && ResolveLock(l, id, settling, now).Ok?
    ensures var l' := ResolveLock(l, id, settling, now).value; Inv(l') && ConversionInv(l'.rows, cs) && Grows(l, l')
  {
    var l' := ResolveLock(l, id, settling, now).value;
    ResolveLockWrites(l, id, settling, now);
    LockMoveKeeps(l, l', l'.rows[|l.rows|], cs);
  }

  lemma TransitionKeepsMoney(l: Ledger, cs: seq<Conversion>, ps: seq<P.Payout>, id: nat, to: P.Status, review: P.Review, now: int)
    requires MoneyInv(l, cs, ps) && id < |ps| && P.Transition(l, ps, id, ps[id].status, to, review, now).Ok?
    ensures var (l', ps') := P.Transition(l, ps, id, ps[id].status, to, review, now).value;
            && MoneyInv(l', cs, ps') && Grows(l, l')
            && ps' == ps[id := P.Reviewed(ps[id], to, review, now)]
  {
    TransitionKeepsPayouts(l, ps, id, to, review, now);
    TransitionMoves(l, ps, id, to, review, now);
    if to != P.Approved {
      ResolutionKeepsLedger(l, cs, ps[id].lockId, to == P.Paid, now);
    }
  }

  // --- Conversions ----------------------------------------------------------

  lemma ReversalRow(l: Ledger, id: nat, source: Source, now: int, cs: seq<Conversion>, ps: seq<P.Payout>)
    requires MoneyInv(l, cs, ps) && Reverse(l, id, source, now).Ok?
    ensures var l' := Reverse(l, id, source, now).value;
            && Inv(l') && Grows(l, l') && PayoutInv(l'.rows, ps)
            && Writes(l, l', l'.rows[|l.rows|]) && l'.rows[|l.rows|].kind.ChargebackDebit?
            && l'.rows[|l.rows|].actsOn == Some(id)
  {
    var l' := Reverse(l, id, source, now).value;
    ReverseWrites(l, id, source, now);
    WritePreserves(l, l'.rows[|l.rows|]);
    OtherMovesKeepPayouts(l, l'.rows[|l.rows|], ps);
  }

  /** The new row of a persisted conversion that earns points. */
  lemma PersistCreditKeeps(b: Books, ps: seq<P.Payout>, postback: nat, plan: Plan, hold: nat, now: int)
    requires MoneyInv(b.ledger, b.conversions, ps) && PlanOk(plan, b) && postback < |b.archive|
    requires PlanCredit(plan.status, plan.points, plan.reversalOf.Some?).credits
    requires Persist(b, postback, plan, hold, now).Ok?
    ensures var b' := Persist(b, postback, plan, hold, now).value;
            MoneyInv(b'.ledger, b'.conversions, ps) && Grows(b.ledger, b'.ledger)
  {
    var l, cs := b.ledger, b.conversions;
    var c := NewConversion(postback, plan);
    var days := if PlanCredit(plan.status, plan.points, false).holdIndefinitely then None else Some(hold);
    var source := FromConversion(|cs|);
    CreditWrites(l, plan.click.user, ConversionCredit, plan.points, source, days, now);
    var l' := Credit(l, plan.click.user, ConversionCredit, plan.points, source, days, now).value;
    var r := l'.rows[|l.rows|];
    WritePreserves(l, r);
    OtherMovesKeepPayouts(l, r, ps);
    CreditKeeps(l, r, cs, c);
  }

  lemma PersistPlainKeeps(b: Books, ps: seq<P.Payout>, postback: nat, plan: Plan)
    requires MoneyInv(b.ledger, b.conversions, ps) && PlanOk(plan, b)
    requires !PlanCredit(plan.status, plan.points, plan.reversalOf.Some?).credits
    ensures MoneyInv(b.ledger, b.conversions + [NewConversion(postback, plan)], ps)
  {
    RecordKeeps(b.ledger.rows, b.conversions, NewConversion(postback, plan));
  }

  /** A chargeback: its own row, the points taken back, the original marked. */
  lemma PersistReversalKeeps(b: Books, ps: seq<P.Payout>, postback: nat, plan: Plan, now: int)
    requires MoneyInv(b.ledger, b.conversions, ps) && PlanOk(plan, b) && plan.reversalOf.Some?
    requires ReverseRewardFor(b.ledger, plan.reversalOf.value, |b.conversions|, now).Ok?
    ensures var l' := ReverseRewardFor(b.ledger, plan.reversalOf.value, |b.conversions|, now).value;
            && Grows(b.ledger, l')
            && MoneyInv(l', MarkReversed(b.conversions + [NewConversion(postback, plan)], plan.reversalOf), ps)
  {
    var l, k := b.ledger, plan.reversalOf.value;
    var cs := b.conversions + [NewConversion(postback, plan)];
    PersistPlainKeeps(b, ps, postback, plan);
    var c := cs[k].(status := Reversed);
    var credit := FindBySource(l.rows, k);
    if credit.None? {
      RestateKeeps(l.rows, cs, k, c);
    } else {
      ReversalRow(l, credit.value, FromConversion(|b.conversions|), now, cs, ps);
      var l' := ReverseRewardFor(l, k, |b.conversions|, now).value;
      TakeBackKeeps(l, l'.rows[|l.rows|], cs, k, c);
    }
  }

  lemma PersistKeepsMoney(b: Books, ps: seq<P.Payout>, postback: nat, plan: Plan, hold: nat, now: int)
    requires MoneyInv(b.ledger, b.conversions, ps) && PlanOk(plan, b) && postback < |b.archive|
    requires Persist(b, postback, plan, hold, now).Ok?
    ensures var b' := Persist(b, postback, plan, hold, now).value;
            MoneyInv(b'.ledger, b'.conversions, ps) && Grows(b.ledger, b'.ledger)
  {
    if PlanCredit(plan.status, plan.points, plan.reversalOf.Some?).credits {
      PersistCreditKeeps(b, ps, postback, plan, hold, now);
    } else if plan.reversalOf.Some? {
      PersistReversalKeeps(b, ps, postback, plan, now);
    } else {
      PersistPlainKeeps(b, ps, postback, plan);
    }
  }

  lemma ReviewHoldKeepsMoney(l: Ledger, cs: seq<Conversion>, ps: seq<P.Payout>, k: nat, decision: Decision, now: int)
    requires MoneyInv(l, cs, ps) && ResolveHold(l, cs, k, decision, now).Ok?
    ensures var (l', cs') := ResolveHold(l, cs, k, decision, now).value;
            MoneyInv(l', cs', ps) && Grows(l, l') && |cs'| == |cs|
            && forall i | 0 <= i < |cs| :: cs'[i].postback == cs[i].postback
  {
    var (l', cs') := ResolveHold(l, cs, k, decision, now).value;
    var c := cs[k].(status := if decision == Clear then Credited else Rejected, reviewed := true);
    var credit := FindBySource(l.rows, k);
    assert Agrees(l.rows, cs[k], credit);
    if credit.None? {
      RestateKeeps(l.rows, cs, k, c);
    } else if decision == Clear {
      ClearKeepsMoney(l, cs, ps, k, c, now);
    } else {
      ReversalRow(l, credit.value, FromSystem, now, cs, ps);
      TakeBackKeeps(l, l'.rows[|l.rows|], cs, k, c);
    }
  }

  lemma ClearKeepsMoney(l: Ledger, cs: seq<Conversion>, ps: seq<P.Payout>, k: nat, c: Conversion, now: int)
    requires MoneyInv(l, cs, ps) && k < |cs| && FindBySource(l.rows, k).Some? && cs[k].status == Held
    requires c == cs[k].(status := Credited, reviewed := true)
    ensures Mature(l, FindBySource(l.rows, k).value, now).Ok?
    ensures var l' := Mature(l, FindBySource(l.rows, k).value, now).value; MoneyInv(l', cs[k := c], ps) && Grows(l, l')
  {
    var credit := FindBySource(l.rows, k).value;
    assert Agrees(l.rows, cs[k], Some(credit));
    MatureWrites(l, credit, now);
    var r := Mature(l, credit, now).value.rows[|l.rows|];
    WritePreserves(l, r);
    OtherMovesKeepPayouts(l, r, ps);
    ReleaseKeeps(l, r, cs, k, c);
  }

  // --- The archive ----------------------------------------------------------

  lemma {:induction false} FindSameKeys(archive: seq<Postback>, i: nat, x: Postback, provider: nat, key: nat)
    requires i < |archive| && x.provider == archive[i].provider && x.key == archive[i].key
    ensures Find(archive[i := x], provider, key) == Find(archive, provider, key)
  {
    var n := |archive| - 1;
    if i < n {
      FindSameKeys(archive[..n], i, x, provider, key);
      assert archive[i := x][..n] == archive[..n][i := x];
    } else {
      assert archive[i := x][..n] == archive[..n];
    }
  }

  lemma AppendAnswers(archive: seq<Postback>, x: Postback, delivered: multiset<(nat, nat)>, delivered': multiset<(nat, nat)>,
    uncounted: multiset<nat>)
    requires Answered(archive, delivered, uncounted) && x.duplicates == 0
    requires x.key.Some? ==> Find(archive, x.provider, x.key.value).None?
    requires delivered' == if x.key.Some? then delivered + multiset{(x.provider, x.key.value)} else delivered
    ensures Answered(archive + [x], delivered', uncounted)
  {
    var archive' := archive + [x];
    forall provider: nat, key: nat ensures OnlySeenArchived(archive', delivered', provider, key) {
      assert OnlySeenArchived(archive, delivered, provider, key);
    }
    assert |archive| !in uncounted;
    forall i | 0 <= i < |archive'| ensures RowCounted(archive', delivered', uncounted, i) {
      if i < |archive| {
        assert archive'[i] == archive[i] && RowCounted(archive, delivered, uncounted, i);
      } else if x.key.Some? {
        assert OnlySeenArchived(archive, delivered, x.provider, x.key.value);
      }
    }
  }

  /** A refused insert waits to be counted on the row that refused it. */
  lemma DuplicateAnswers(archive: seq<Postback>, i: nat, delivered: multiset<(nat, nat)>, uncounted: multiset<nat>)
    requires Answered(archive, delivered, uncounted) && i < |archive| && archive[i].key.Some?
    ensures Answered(archive, delivered + multiset{(archive[i].provider, archive[i].key.value)}, uncounted + multiset{i})
  {
    var delivered' := delivered + multiset{(archive[i].provider, archive[i].key.value)};
    forall provider: nat, key: nat ensures OnlySeenArchived(archive, delivered', provider, key) {
      assert OnlySeenArchived(archive, delivered, provider, key);
    }
    forall j | 0 <= j < |archive| ensures RowCounted(archive, delivered', uncounted + multiset{i}, j) {
      assert RowCounted(archive, delivered, uncounted, j);
    }
  }

  /** A row changes in everything but its key, and stays counted. */
  lemma RowChangeAnswers(archive: seq<Postback>, i: nat, x: Postback, delivered: multiset<(nat, nat)>,
    uncounted: multiset<nat>, uncounted': multiset<nat>)
    requires Answered(archive, delivered, uncounted) && i < |archive|
    requires x.provider == archive[i].provider && x.key == archive[i].key
    requires x.duplicates + uncounted'[i] == archive[i].duplicates + uncounted[i]
    requires uncounted' <= uncounted && forall j | j != i :: uncounted'[j] == uncounted[j]
    ensures Answered(archive[i := x], delivered, uncounted')
  {
    var archive' := archive[i := x];
    forall provider: nat, key: nat ensures OnlySeenArchived(archive', delivered, provider, key) {
      assert OnlySeenArchived(archive, delivered, provider, key);
      FindSameKeys(archive, i, x, provider, key);
    }
    forall j | 0 <= j < |archive'| ensures RowCounted(archive', delivered, uncounted', j) {
      assert RowCounted(archive, delivered, uncounted, j);
    }
  }

  /** Counting moves one waiting delivery onto the row. */
  lemma CountAnswers(archive: seq<Postback>, i: nat, delivered: multiset<(nat, nat)>, uncounted: multiset<nat>)
    requires Answered(archive, delivered, uncounted) && i < |archive| && i in uncounted
    ensures Answered(archive[i := archive[i].(duplicates := archive[i].duplicates + 1)], delivered, uncounted - multiset{i})
  {
    RowChangeAnswers(archive, i, archive[i].(duplicates := archive[i].duplicates + 1), delivered, uncounted,
                     uncounted - multiset{i});
  }

  lemma MarkAnswers(archive: seq<Postback>, i: nat, state: PostbackState, delivered: multiset<(nat, nat)>, uncounted: multiset<nat>)
    requires Answered(archive, delivered, uncounted) && i < |archive|
    ensures Answered(archive[i := Marked(archive[i], state)], delivered, uncounted)
  {
    RowChangeAnswers(archive, i, Marked(archive[i], state), delivered, uncounted, uncounted);
  }

  /** Conversions grow, or change in ways that keep their postbacks. */
  lemma ConversionsRecord(archive: seq<Postback>, cs: seq<Conversion>, cs': seq<Conversion>)
    requires Recorded(archive, cs) && |cs| <= |cs'| <= |cs| + 1
    requires forall i | 0 <= i < |cs| :: cs'[i].postback == cs[i].postback
    requires |cs'| > |cs| ==> cs'[|cs|].postback < |archive| && !PostbackTaken(cs, cs'[|cs|].postback)
    ensures Recorded(archive, cs')
  {
  }

  lemma PersistRecords(b: Books, postback: nat, plan: Plan, hold: nat, now: int)
    requires Recorded(b.archive, b.conversions) && PlanOk(plan, b) && postback < |b.archive|
    requires Persist(b, postback, plan, hold, now).Ok?
    ensures var b' := Persist(b, postback, plan, hold, now).value;
            && b'.archive == b.archive[postback := Marked(b.archive[postback], Processed)]
            && Recorded(b'.archive, b'.conversions) && |b'.conversions| == |b.conversions| + 1
  {
    var b' := Persist(b, postback, plan, hold, now).value;
    ConversionsRecord(b.archive, b.conversions, b'.conversions);
    assert b'.conversions[|b.conversions|].postback == postback;
  }

  // --- Frames ---------------------------------------------------------------

  /** Nothing jobs and sweeps rely on goes away. */
  ghost predicate BooksGrow(b: Books, b': Books) {
    Grows(b.ledger, b'.ledger) && |b.conversions| <= |b'.conversions| && |b.archive| <= |b'.archive|
  }

  lemma JobsFrame(jobs: map<nat, Job>, b: Books, b': Books)
    requires JobsInv(jobs, b) && BooksGrow(b, b')
    ensures JobsInv(jobs, b')
  {
  }

  lemma SweepsFrame(p: Platform, p': Platform)
    requires SweepsInv(p) && Grows(p.books.ledger, p'.books.ledger) && p.clock <= p'.clock && p'.sweeps == p.sweeps
    ensures SweepsInv(p')
  {
  }

  predicate SamePayments(p: Platform, p': Platform) {
    p'.executed == p.executed && p'.payouts == p.payouts && p'.settlements == p.settlements
  }

  lemma ProcessingFrame(p: Platform, e: Event)
    requires Enabled(p, e) && Processes(e)
    ensures SamePayments(p, Apply(p, e))
  {
  }

  lemma DeliveryFrame(p: Platform, e: Event)
    requires Enabled(p, e) && Delivers(e)
    ensures SamePayments(p, Apply(p, e))
    ensures Apply(p, e).jobs == p.jobs && Apply(p, e).books.conversions == p.books.conversions
  {
  }

  lemma SettlementFrame(p: Platform, e: Event)
    requires Enabled(p, e) && Settles(e)
    ensures Apply(p, e).books == p.books && Apply(p, e).jobs == p.jobs
  {
  }

  lemma WithdrawalFrame(p: Platform, e: Event)
    requires Enabled(p, e) && Withdraws(e)
    ensures Apply(p, e).jobs == p.jobs && Apply(p, e).books.conversions == p.books.conversions
    ensures Apply(p, e).books.archive == p.books.archive
  {
  }

  lemma SweepFrame(p: Platform, e: Event)
    requires Enabled(p, e) && (e.StartSweep? || e.SweepOne? || e.Tick?)
    ensures SamePayments(p, Apply(p, e)) && Apply(p, e).jobs == p.jobs
    ensures Apply(p, e).books.conversions == p.books.conversions && Apply(p, e).books.archive == p.books.archive
  {
  }

  lemma PointsFrame(p: Platform, e: Event)
    requires Enabled(p, e) && (e.Register? || e.GrantBonus? || e.Adjust? || e.ReviewHold?)
    ensures SamePayments(p, Apply(p, e)) && Apply(p, e).jobs == p.jobs
    ensures Apply(p, e).books.archive == p.books.archive
    ensures !e.ReviewHold? ==> Apply(p, e).books.conversions == p.books.conversions
  {
  }

  /** Only workers move jobs; only they and the review of a hold touch a conversion. */
  lemma OutsideProcessing(p: Platform, e: Event)
    requires Enabled(p, e) && !Processes(e)
    ensures Apply(p, e).jobs == p.jobs
    ensures !e.ReviewHold? ==> Apply(p, e).books.conversions == p.books.conversions
    ensures !Delivers(e) ==> Apply(p, e).books.archive == p.books.archive
  {
    if Delivers(e) {
      DeliveryFrame(p, e);
    } else if Settles(e) {
      SettlementFrame(p, e);
    } else if Withdraws(e) {
      WithdrawalFrame(p, e);
    } else if e.StartSweep? || e.SweepOne? || e.Tick? {
      SweepFrame(p, e);
    } else {
      PointsFrame(p, e);
    }
  }

  /** Only settlements and withdrawals touch a request or its payments. */
  lemma OutsideWithdrawals(p: Platform, e: Event)
    requires Enabled(p, e) && !Settles(e) && !Withdraws(e)
    ensures SamePayments(p, Apply(p, e))
  {
    if Delivers(e) {
      DeliveryFrame(p, e);
    } else if Processes(e) {
      ProcessingFrame(p, e);
    } else if e.StartSweep? || e.SweepOne? || e.Tick? {
      SweepFrame(p, e);
    } else {
      PointsFrame(p, e);
    }
  }

  // --- Every event ----------------------------------------------------------

  /** Events that move money without touching conversions, payouts, jobs or reviews. */
  lemma LedgerEventKeeps(p: Platform, p': Platform)
    requires PlatformInv(p)
    requires p' == p.(books := p.books.(ledger := p'.books.ledger)) && Grows(p.books.ledger, p'.books.ledger)
    requires MoneyInv(p'.books.ledger, p.books.conversions, p.payouts)
    ensures PlatformInv(p')
  {
  }

  lemma RegisterEventKeeps(p: Platform, user: UserId)
    requires PlatformInv(p)
    ensures PlatformInv(Apply(p, Register(user)))
  {
    RegisterKeepsMoney(p.books.ledger, p.books.conversions, p.payouts, user);
    LedgerEventKeeps(p, Apply(p, Register(user)));
  }

  lemma BonusEventKeeps(p: Platform, user: UserId, amount: int, hold: Option<nat>)
    requires PlatformInv(p) && Credit(p.books.ledger, user, Bonus, amount, FromAdmin, hold, p.clock).Ok?
    ensures PlatformInv(Apply(p, GrantBonus(user, amount, hold)))
  {
    BonusKeepsMoney(p.books.ledger, p.books.conversions, p.payouts, user, amount, hold, p.clock);
    LedgerEventKeeps(p, Apply(p, GrantBonus(user, amount, hold)));
  }

  lemma AdjustEventKeeps(p: Platform, user: UserId, amount: int)
    requires PlatformInv(p) && Debit(p.books.ledger, user, amount, FromAdmin, p.clock).Ok?
    ensures PlatformInv(Apply(p, Adjust(user, amount)))
  {
    AdjustKeepsMoney(p.books.ledger, p.books.conversions, p.payouts, user, amount, p.clock);
    LedgerEventKeeps(p, Apply(p, Adjust(user, amount)));
  }

  lemma DeliverEventKeeps(p: Platform, provider: nat, key: nat)
    requires PlatformInv(p)
    ensures PlatformInv(ApplyDelivery(p, provider, key))
  {
    var found, archive := Find(p.books.archive, provider, key), p.books.archive;
    var delivered := p.delivered + multiset{(provider, key)};
    if found.None? {
      AppendAnswers(archive, Fresh(provider, key), p.delivered, delivered, p.uncounted);
    } else {
      DuplicateAnswers(archive, found.value, p.delivered, p.uncounted);
    }
  }

  lemma UnparseableEventKeeps(p: Platform, provider: nat)
    requires PlatformInv(p)
    ensures PlatformInv(Apply(p, DeliverUnparseable(provider)))
  {
    var x := Postback(provider, None, Unparseable, 0, 0);
    AppendAnswers(p.books.archive, x, p.delivered, p.delivered, p.uncounted);
  }

  lemma CountEventKeeps(p: Platform, i: nat)
    requires PlatformInv(p) && i < |p.books.archive| && i in p.uncounted
    ensures PlatformInv(ApplyCount(p, i))
  {
    CountAnswers(p.books.archive, i, p.delivered, p.uncounted);
  }

  lemma AttributionPlansOk(p: Platform, w: nat, reading: Reading, rates: Rates, active: bool, fraud: Option<FraudAction>)
    requires PlatformInv(p) && w in p.jobs && p.jobs[w].postback < |p.books.archive|
    ensures JobsInv(ApplyAttribution(p, w, reading, rates, active, fraud).jobs, p.books)
  {
    var p' := ApplyAttribution(p, w, reading, rates, active, fraud);
    forall v | v in p'.jobs ensures JobOk(p'.jobs[v], p.books) {
      if v != w {
        assert JobOk(p.jobs[v], p.books);
      } else if reading.Readable? && p'.jobs[w].Ready? && p'.jobs[w].plan.reversalOf.Some? {
        var found := Candidates(p.books.conversions, reading.click.id, reading.parsed);
        assert found[0] in found;
      }
    }
  }

  lemma JobSetKeeps(jobs: map<nat, Job>, b: Books, w: nat, job: Job)
    requires JobsInv(jobs, b) && JobOk(job, b)
    ensures JobsInv(jobs[w := job], b)
  {
  }

  lemma JobDropKeeps(jobs: map<nat, Job>, b: Books, w: nat)
    requires JobsInv(jobs, b)
    ensures JobsInv(jobs - {w}, b)
  {
  }

  /** A conversion commits: money, rows and the archive move together. */
  lemma CommitEventKeeps(p: Platform, w: nat, hold: nat)
    requires PlatformInv(p) && w in p.jobs && p.jobs[w].Ready? && JobOk(p.jobs[w], p.books)
    requires Persist(p.books, p.jobs[w].postback, p.jobs[w].plan, hold, p.clock).Ok?
    ensures PlatformInv(ApplyPersist(p, w, hold))
  {
    var job, p' := p.jobs[w], ApplyPersist(p, w, hold);
    PersistKeepsMoney(p.books, p.payouts, job.postback, job.plan, hold, p.clock);
    PersistRecords(p.books, job.postback, job.plan, hold, p.clock);
    MarkAnswers(p.books.archive, job.postback, Processed, p.delivered, p.uncounted);
    JobDropKeeps(p.jobs, p.books, w);
    JobsFrame(p'.jobs, p.books, p'.books);
    SweepsFrame(p, p');
  }

  /** The race's loser stops; any other refusal is marked failed. Neither leaves anything behind. */
  lemma RefusedPersist(p: Platform, w: nat, hold: nat)
    requires w in p.jobs && p.jobs[w].Ready? && p.jobs[w].postback < |p.books.archive|
    requires Persist(p.books, p.jobs[w].postback, p.jobs[w].plan, hold, p.clock).Err?
    ensures ApplyPersist(p, w, hold) ==
            if Persist(p.books, p.jobs[w].postback, p.jobs[w].plan, hold, p.clock) == Err(UniqueViolation)
            then p.(jobs := p.jobs - {w})
            else p.(jobs := p.jobs[w := Ending(p.jobs[w].postback, Failed)])
  {
  }

  lemma PersistEventKeeps(p: Platform, w: nat, hold: nat)
    requires PlatformInv(p) && w in p.jobs && p.jobs[w].Ready? && p.jobs[w].postback < |p.books.archive|
    ensures PlatformInv(ApplyPersist(p, w, hold))
  {
    assert JobOk(p.jobs[w], p.books);
    if Persist(p.books, p.jobs[w].postback, p.jobs[w].plan, hold, p.clock).Ok? {
      CommitEventKeeps(p, w, hold);
    } else {
      RefusedPersist(p, w, hold);
    }
  }

  lemma AttributeEventKeeps(p: Platform, w: nat, reading: Reading, rates: Rates, active: bool, fraud: Option<FraudAction>)
    requires PlatformInv(p) && w in p.jobs && p.jobs[w].postback < |p.books.archive|
    ensures PlatformInv(ApplyAttribution(p, w, reading, rates, active, fraud))
  {
    AttributionPlansOk(p, w, reading, rates, active, fraud);
  }

  lemma MarkEventKeeps(p: Platform, w: nat)
    requires PlatformInv(p) && w in p.jobs && p.jobs[w].Ending? && p.jobs[w].postback < |p.books.archive|
    ensures PlatformInv(ApplyMark(p, w))
  {
    var job := p.jobs[w];
    assert JobOk(job, p.books);
    MarkAnswers(p.books.archive, job.postback, job.outcome, p.delivered, p.uncounted);
    JobDropKeeps(p.jobs, p.books, w);
  }

  lemma JobEventKeeps(p: Platform, e: Event)
    requires PlatformInv(p) && Enabled(p, e)
    requires e.StartJob? || e.BreakJob? || e.LoseJob?
    ensures PlatformInv(Apply(p, e))
  {
    match e
    case StartJob(w, i) => JobSetKeeps(p.jobs, p.books, w, Loaded(i));
    case BreakJob(w) =>
      assert JobOk(p.jobs[w], p.books);
      JobSetKeeps(p.jobs, p.books, w, Ending(p.jobs[w].postback, Failed));
    case LoseJob(w) => JobDropKeeps(p.jobs, p.books, w);
  }

  lemma ReviewHoldEventKeeps(p: Platform, k: nat, decision: Decision)
    requires PlatformInv(p)
    ensures PlatformInv(ApplyReviewHold(p, k, decision))
  {
    var p' := ApplyReviewHold(p, k, decision);
    if ResolveHold(p.books.ledger, p.books.conversions, k, decision, p.clock).Ok? {
      ReviewHoldKeepsMoney(p.books.ledger, p.books.conversions, p.payouts, k, decision, p.clock);
      ConversionsRecord(p.books.archive, p.books.conversions, p'.books.conversions);
      JobsFrame(p.jobs, p.books, p'.books);
      SweepsFrame(p, p');
    }
  }

  lemma SubmitEventKeeps(p: Platform, s: P.Submission, policy: P.Policy)
    requires PlatformInv(p)
    ensures PlatformInv(ApplySubmit(p, s, policy))
  {
    if P.Submit(p.books.ledger, p.payouts, s, policy, p.clock).Ok? {
      var p' := ApplySubmit(p, s, policy);
      SubmitKeepsMoney(p.books.ledger, p.books.conversions, p.payouts, s, policy, p.clock);
      JobsFrame(p.jobs, p.books, p'.books);
      SweepsFrame(p, p');
    }
  }

  /** The row lock is what makes the captured status current, and the paid payment an executed one. */
  lemma FinishEventKeeps(p: Platform, a: nat)
    requires PlatformInv(p) && Enabled(p, FinishReview(a))
    ensures PlatformInv(ApplyFinish(p, a))
  {
    var x, p' := p.reviews[a], ApplyFinish(p, a);
    if P.Transition(p.books.ledger, p.payouts, x.payout, x.read, x.to, x.review, p.clock).Ok? {
      TransitionKeepsMoney(p.books.ledger, p.books.conversions, p.payouts, x.payout, x.to, x.review, p.clock);
      JobsFrame(p.jobs, p.books, p'.books);
      SweepsFrame(p, p');
    }
  }

  lemma RowLocksKept(p: Platform, e: Event)
    requires ReviewsInv(p) && Enabled(p, e) && (Settles(e) || e.AbortReview?)
    ensures ReviewsInv(Apply(p, e))
  {
    if e.BeginReview? {
      RowTaken(p, e.admin, e.payout, e.to, e.review);
    } else if e.AbortReview? {
      RowLeft(p, e.admin);
    } else {
      assert Apply(p, e).reviews == p.reviews && Apply(p, e).payouts == p.payouts;
    }
  }

  lemma RowLeft(p: Platform, admin: nat)
    requires ReviewsInv(p)
    ensures ReviewsInv(p.(reviews := p.reviews - {admin}))
  {
  }

  lemma RowTaken(p: Platform, admin: nat, payout: nat, to: P.Status, review: P.Review)
    requires ReviewsInv(p) && CanBeginReview(p, admin, payout, to, review)
    ensures ReviewsInv(ApplyBeginReview(p, admin, payout, to, review))
  {
  }

  lemma PayoutEventKeeps(p: Platform, e: Event)
    requires PlatformInv(p) && Enabled(p, e) && (Settles(e) || e.AbortReview?)
    ensures PlatformInv(Apply(p, e))
  {
    RowLocksKept(p, e);
  }

  lemma TickEventKeeps(p: Platform, e: Event)
    requires PlatformInv(p) && e.Tick?
    ensures PlatformInv(Apply(p, e))
  {
  }

  lemma StartSweepEventKeeps(p: Platform, e: Event)
    requires PlatformInv(p) && e.StartSweep? && Enabled(p, e)
    ensures PlatformInv(Apply(p, e))
  {
  }

  lemma SweepEventKeeps(p: Platform, s: nat)
    requires PlatformInv(p) && Enabled(p, SweepOne(s))
    ensures PlatformInv(ApplySweep(p, s))
  {
    var todo := p.sweeps[s];
    var trimmed := p.(sweeps := p.sweeps[s := todo[1..]]);
    assert Due(p.books.ledger.rows, p.clock, todo[0]);
    SweepKeepsMoney(p.books.ledger, p.books.conversions, p.payouts, todo[0], p.clock);
    assert SweepsInv(trimmed);
    LedgerEventKeeps(trimmed, ApplySweep(p, s));
  }

  /** A worker's steps. */
  lemma ProcessingEventKeeps(p: Platform, e: Event)
    requires PlatformInv(p) && Enabled(p, e) && Processes(e)
    ensures PlatformInv(Apply(p, e))
  {
    match e
    case AttributeJob(w, reading, rates, active, fraud) => AttributeEventKeeps(p, w, reading, rates, active, fraud);
    case PersistJob(w, hold) => PersistEventKeeps(p, w, hold);
    case MarkJob(w) => MarkEventKeeps(p, w);
    case _ => JobEventKeeps(p, e);
  }

  /** Deliveries, and the points nobody's conversion or withdrawal is about. */
  lemma ArrivalEventKeeps(p: Platform, e: Event)
    requires PlatformInv(p) && Enabled(p, e)
    requires e.Register? || e.GrantBonus? || e.Adjust? || e.Deliver? || e.DeliverUnparseable? || e.CountDuplicate?
    ensures PlatformInv(Apply(p, e))
  {
    match e
    case Register(user) => RegisterEventKeeps(p, user);
    case GrantBonus(user, amount, hold) =>
      if Credit(p.books.ledger, user, Bonus, amount, FromAdmin, hold, p.clock).Ok? {
        BonusEventKeeps(p, user, amount, hold);
      }
    case Adjust(user, amount) =>
      if Debit(p.books.ledger, user, amount, FromAdmin, p.clock).Ok? {
        AdjustEventKeeps(p, user, amount);
      }
    case Deliver(provider, key) => DeliverEventKeeps(p, provider, key);
    case DeliverUnparseable(provider) => UnparseableEventKeeps(p, provider);
    case CountDuplicate(i) => CountEventKeeps(p, i);
  }

  lemma EventKeeps(p: Platform, e: Event)
    requires PlatformInv(p) && Enabled(p, e)
    ensures PlatformInv(Apply(p, e))
  {
    if Processes(e) {
      ProcessingEventKeeps(p, e);
    } else if Settles(e) || e.AbortReview? {
      PayoutEventKeeps(p, e);
    } else {
      match e
      case Tick(_) => TickEventKeeps(p, e);
      case ReviewHold(k, decision) => ReviewHoldEventKeeps(p, k, decision);
      case SubmitPayout(s, policy) => SubmitEventKeeps(p, s, policy);
      case FinishReview(a) => FinishEventKeeps(p, a);
      case StartSweep(_, _) => StartSweepEventKeeps(p, e);
      case SweepOne(s) => SweepEventKeeps(p, s);
      case _ => ArrivalEventKeeps(p, e);
    }
  }

  lemma InitiallyInv()
    ensures PlatformInv(INITIAL)
  {
  }

  lemma {:induction false} EveryRun(es: seq<Event>)
    ensures PlatformInv(Reached(es))
  {
    if es == [] {
      InitiallyInv();
    } else {
      var n := |es| - 1;
      EveryRun(es[..n]);
      if Enabled(Reached(es[..n]), es[n]) {
        EventKeeps(Reached(es[..n]), es[n]);
      }
    }
  }

  lemma {:induction false} NextAfter(es: seq<Event>, e: Event)
    ensures Reached(es + [e]) == Next(Reached(es), e)
  {
    assert (es + [e])[..|es|] == es;
  }

  lemma {:induction false} OneMore(es: seq<Event>, more: seq<Event>)
    requires more != []
    ensures Reached(es + more) == Next(Reached(es + more[..|more| - 1]), more[|more| - 1])
  {
    var before, last := es + more[..|more| - 1], more[|more| - 1];
    assert es + more == before + [last];
    NextAfter(before, last);
  }

  lemma Extend(es: seq<Event>, e: Event)
    requires Enabled(Reached(es), e)
    ensures Reached(es + [e]) == Apply(Reached(es), e)
  {
    NextAfter(es, e);
  }

  lemma {:induction false} TwoMore(es: seq<Event>, first: Event, second: Event)
    ensures Reached(es + [first, second]) == Next(Next(Reached(es), first), second)
  {
    NextAfter(es, first);
    NextAfter(es + [first], second);
    assert es + [first, second] == es + [first] + [second];
  }

  // --- One part of the invariant at a time ------------------------------------

  lemma JobsOf(es: seq<Event>)
    ensures JobsInv(Reached(es).jobs, Reached(es).books)
  {
    EveryRun(es);
  }

  lemma LedgerOf(es: seq<Event>)
    ensures Inv(Reached(es).books.ledger)
  {
    EveryRun(es);
  }

  lemma AccountOf(es: seq<Event>, u: UserId)
    ensures AccountInv(Reached(es).books.ledger, u)
  {
    LedgerOf(es);
  }

  lemma PayoutsOf(es: seq<Event>)
    ensures PayoutInv(Reached(es).books.ledger.rows, Reached(es).payouts)
  {
    EveryRun(es);
  }

  lemma ConversionsOf(es: seq<Event>)
    ensures ConversionInv(Reached(es).books.ledger.rows, Reached(es).books.conversions)
  {
    EveryRun(es);
  }

  lemma AgreementOf(es: seq<Event>, k: nat)
    requires k < |Reached(es).books.conversions|
    ensures var b := Reached(es).books; Agrees(b.ledger.rows, b.conversions[k], FindBySource(b.ledger.rows, k))
  {
    ConversionsOf(es);
  }

  lemma CreditsOf(es: seq<Event>)
    ensures CreditsAreConversions(Reached(es).books.ledger.rows, Reached(es).books.conversions)
  {
    ConversionsOf(es);
  }

  lemma ArchiveOf(es: seq<Event>)
    ensures Answered(Reached(es).books.archive, Reached(es).delivered, Reached(es).uncounted)
    ensures Recorded(Reached(es).books.archive, Reached(es).books.conversions)
  {
    EveryRun(es);
  }

  lemma PaymentsOf(es: seq<Event>)
    ensures ReviewsInv(Reached(es))
  {
    EveryRun(es);
  }
}
