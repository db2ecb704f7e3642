/** When each ledger operation is granted, and where it moves the points: the user's buckets before and after. */
module LedgerTheorems {
  import opened Wrappers
  import opened Ledgers
  import opened RewardAccountings

  /** The user's buckets move by these amounts; nobody else's do, and nobody comes or goes. */
  predicate Shifts(l: Ledger, l': Ledger, u: UserId, pending: int, available: int, locked: int) {
    && u in l.balances && l'.balances.Keys == l.balances.Keys
    && (forall v | v in l.balances && v != u :: l'.balances[v] == l.balances[v])
    && l'.balances[u].pending - l.balances[u].pending == pending
    && l'.balances[u].available - l.balances[u].available == available
    && l'.balances[u].locked - l.balances[u].locked == locked
  }

  /** And the lifetime totals by these. */
  predicate Counts(l: Ledger, l': Ledger, u: UserId, earned: int, withdrawn: int, reversed: int) {
    && u in l.balances && u in l'.balances
    && l'.balances[u].lifetime.earned - l.balances[u].lifetime.earned == earned
    && l'.balances[u].lifetime.withdrawn - l.balances[u].lifetime.withdrawn == withdrawn
    && l'.balances[u].lifetime.reversed - l.balances[u].lifetime.reversed == reversed
  }

  /** One row more, the last, for this user and of this kind, acting on this row. */
  predicate Adds(l: Ledger, l': Ledger, u: UserId, kind: Kind, actsOn: Option<nat>) {
    && |l'.rows| == |l.rows| + 1 && l'.rows[..|l.rows|] == l.rows
    && l'.rows[|l.rows|].user == u && l'.rows[|l.rows|].kind == kind && l'.rows[|l.rows|].actsOn == actsOn
  }

  /** A credit is granted to any account for any positive amount, and goes to `pending`. */
  lemma CreditIsPending(l: Ledger, u: UserId, kind: Kind, amount: int, source: Source, hold: Option<nat>, now: int)
    ensures var given := Credit(l, u, kind, amount, source, hold, now);
            && (given.Ok? <==> 0 < amount && u in l.balances)
            && (given.Ok? ==>
                  && Shifts(l, given.value, u, amount, 0, 0) && Counts(l, given.value, u, amount, 0, 0)
                  && Adds(l, given.value, u, kind, None)
                  && given.value.rows[|l.rows|].amount == amount && given.value.rows[|l.rows|].source == source
                  && given.value.rows[|l.rows|].at == now)
  {
  }

  /** A hold of d days ends d days of 86,400,000 milliseconds after the credit; an indefinite one never does. */
  lemma CreditStoresItsDate(l: Ledger, u: UserId, kind: Kind, amount: int, source: Source, hold: Option<nat>, now: int)
    requires Credit(l, u, kind, amount, source, hold, now).Ok?
    ensures var r := Credit(l, u, kind, amount, source, hold, now).value.rows[|l.rows|];
            && r.at == now
            && (hold.None? ==> r.maturesAt == None)
            && (hold.Some? ==> r.maturesAt == Some(r.at + hold.value * 86400000))
  {
  }

  /** So the query returns it at no time before that, and never when the hold is indefinite. */
  lemma HeldCreditsAreNotDue(
    l: Ledger, u: UserId, kind: Kind, amount: int, source: Source, hold: Option<nat>, now: int, more: seq<Row>, t: int)
    requires Credit(l, u, kind, amount, source, hold, now).Ok?
    ensures var rows := Credit(l, u, kind, amount, source, hold, now).value.rows + more;
            |l.rows| in FindMaturable(rows, t, MATURATION_BATCH_SIZE) ==> hold.Some? && now + hold.value * 86400000 <= t
  {
    var rows := Credit(l, u, kind, amount, source, hold, now).value.rows + more;
    CreditStoresItsDate(l, u, kind, amount, source, hold, now);
    FindMaturableIsABatch(rows, t);
    var batch := FindMaturable(rows, t, MATURATION_BATCH_SIZE);
    if |l.rows| in batch {
      var i :| 0 <= i < |batch| && batch[i] == |l.rows|;
      assert Maturable(rows, t, batch[i]);
    }
  }

  /** A debit takes any positive amount from `available`, covered or not. */
  lemma DebitTakesAvailable(l: Ledger, u: UserId, amount: int, source: Source, now: int)
    ensures var taken := Debit(l, u, amount, source, now);
            && (taken.Ok? <==> 0 < amount && u in l.balances)
            && (taken.Ok? ==>
                  && Shifts(l, taken.value, u, 0, -amount, 0) && Counts(l, taken.value, u, 0, 0, 0)
                  && Adds(l, taken.value, u, ManualAdjustment, None) && taken.value.rows[|l.rows|].amount == -amount)
  {
  }

  /** A positive request is granted if and only if `available` covers it, whatever is locked already. */
  lemma LockIffCovered(l: Ledger, u: UserId, amount: int, payout: nat, now: int)
    ensures var locked := Lock(l, u, amount, payout, now);
            && (locked.Ok? <==> 0 < amount && u in l.balances && amount <= l.balances[u].available)
            && (locked.Ok? ==>
                  && Shifts(l, locked.value, u, 0, -amount, amount) && Counts(l, locked.value, u, 0, 0, 0)
                  && Adds(l, locked.value, u, PayoutLock, None)
                  && locked.value.rows[|l.rows|].locked == amount && locked.value.rows[|l.rows|].source == FromPayout(payout))
  {
  }

  /** What `pending` covers first, the rest from `available`, which may go below zero. */
  predicate TakesPendingFirst(l: Ledger, l': Ledger, u: UserId, amount: int) {
    && u in l.balances
    && var pending := l.balances[u].pending;
       if amount <= pending then Shifts(l, l', u, -amount, 0, 0) else Shifts(l, l', u, -pending, pending - amount, 0)
  }

  /** A positive row nobody has charged back is taken back whole. */
  lemma ReverseTakesPendingFirst(l: Ledger, id: nat, source: Source, now: int)
    ensures var taken := Reverse(l, id, source, now);
            && (taken.Ok? <==>
                  id < |l.rows| && 0 < l.rows[id].amount && l.rows[id].user in l.balances && !ChargedBack(l.rows, id))
            && (taken.Ok? ==>
                  var u, amount := l.rows[id].user, l.rows[id].amount;
                  && Adds(l, taken.value, u, ChargebackDebit, Some(id)) && Counts(l, taken.value, u, 0, 0, amount)
                  && TakesPendingFirst(l, taken.value, u, amount))
  {
  }

  /** An open row's points move from `pending` to `available`; anything else stays as it is. */
  lemma MatureReleases(l: Ledger, id: nat, now: int)
    requires id < |l.rows| ==> l.rows[id].user in l.balances
    ensures var moved := Mature(l, id, now);
            && moved.Ok?
            && if id < |l.rows| && !Matured(l.rows, id) && !ChargedBack(l.rows, id) then
                 var u, amount := l.rows[id].user, l.rows[id].amount;
                 && Adds(l, moved.value, u, RewardMaturation, Some(id)) && moved.value.rows[|l.rows|].at == now
                 && Shifts(l, moved.value, u, -amount, amount, 0) && Counts(l, moved.value, u, 0, 0, 0)
               else moved.value == l
  {
  }

  /** A lock is resolved once: settling takes the locked points out of the account, refunding makes them available again. */
  lemma ResolveOnce(l: Ledger, id: nat, settling: bool, now: int)
    ensures var moved := ResolveLock(l, id, settling, now);
            && (moved.Ok? <==>
                  id < |l.rows| && l.rows[id].kind == PayoutLock && l.rows[id].user in l.balances
                  && !ActedOn(l.rows, id, PayoutSettle) && !ActedOn(l.rows, id, PayoutRefund))
            && (moved.Ok? ==>
                  var u, held := l.rows[id].user, l.rows[id].locked;
                  && Adds(l, moved.value, u, if settling then PayoutSettle else PayoutRefund, Some(id))
                  && Shifts(l, moved.value, u, 0, if settling then 0 else held, -held)
                  && Counts(l, moved.value, u, 0, if settling then held else 0, 0))
  {
  }
}
