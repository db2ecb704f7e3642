/** What every reachable ledger satisfies. */
module LedgerInvariants {
  import opened Wrappers
  import opened Sums
  import opened Ledgers

  // --- Sums over a user's history -------------------------------------------

  function Column(rows: seq<Row>, u: UserId, pick: Row -> int): int -> int {
    i => if 0 <= i < |rows| && rows[i].user == u then pick(rows[i]) else 0
  }

  function Total(rows: seq<Row>, u: UserId, pick: Row -> int): int {
    SumTo(|rows|, Column(rows, u, pick))
  }

  function PendingOf(r: Row): int { r.pending }
  function AvailableOf(r: Row): int { r.available }
  function LockedOf(r: Row): int { r.locked }
  function AmountOf(r: Row): int { r.amount }
  function EarnedOf(r: Row): int { if IsCredit(r.kind) then r.amount else 0 }
  function WithdrawnOf(r: Row): int { if r.kind.PayoutSettle? then -r.amount else 0 }
  function ReversedOf(r: Row): int { if r.kind.ChargebackDebit? then -r.amount else 0 }
  function DebitedOf(r: Row): int { if r.kind.ManualAdjustment? then -r.amount else 0 }
  /** Points a maturation made withdrawable. */
  function MaturedOf(r: Row): int { if r.kind.RewardMaturation? then r.available else 0 }
  /** Points a chargeback took from `available`, because `pending` did not cover it. */
  function ClawedOf(r: Row): int { if r.kind.ChargebackDebit? then -r.available else 0 }

  /** Credits neither matured nor charged back. */
  function OpenCreditAt(rows: seq<Row>, u: UserId): int -> int {
    i => if 0 <= i < |rows| && rows[i].user == u && IsCredit(rows[i].kind)
            && !Matured(rows, i) && !ChargedBack(rows, i)
         then rows[i].amount else 0
  }

  function OpenCredits(rows: seq<Row>, u: UserId): int {
    SumTo(|rows|, OpenCreditAt(rows, u))
  }

  /** Credits charged back although they had matured. */
  function LateReversalAt(rows: seq<Row>, u: UserId): int -> int {
    i => if 0 <= i < |rows| && rows[i].user == u && IsCredit(rows[i].kind)
            && Matured(rows, i) && ChargedBack(rows, i)
         then rows[i].amount else 0
  }

  function LateReversals(rows: seq<Row>, u: UserId): int {
    SumTo(|rows|, LateReversalAt(rows, u))
  }

  /** Payout locks neither settled nor refunded. */
  function OpenLockAt(rows: seq<Row>, u: UserId): int -> int {
    i => if 0 <= i < |rows| && rows[i].user == u && rows[i].kind.PayoutLock? && !Resolved(rows, i)
         then rows[i].locked else 0
  }

  function OpenLocks(rows: seq<Row>, u: UserId): int {
    SumTo(|rows|, OpenLockAt(rows, u))
  }

  // --- The invariant --------------------------------------------------------

  /** Row j acts on an earlier row of the same user that satisfies `target`. */
  ghost predicate ActsOnEarlier(rows: seq<Row>, j: nat, target: Row -> bool)
    requires j < |rows|
  {
    && rows[j].actsOn.Some?
    && rows[j].actsOn.value < j
    && rows[rows[j].actsOn.value].user == rows[j].user
    && target(rows[rows[j].actsOn.value])
  }

  /** What each kind of movement may do to the buckets, relative to the row it acts on. */
  ghost predicate WellFormed(rows: seq<Row>, j: nat)
    requires j < |rows|
  {
    var r := rows[j];
    match r.kind
    case ConversionCredit => 0 < r.amount == r.pending && r.available == 0 == r.locked && r.actsOn == None
    case Bonus => 0 < r.amount == r.pending && r.available == 0 == r.locked && r.actsOn == None
    case RewardMaturation =>
      && ActsOnEarlier(rows, j, (t: Row) => IsCredit(t.kind) && r.available == t.amount == -r.pending)
      && r.amount == 0 == r.locked
    case ChargebackDebit =>
      && ActsOnEarlier(rows, j, (t: Row) => IsCredit(t.kind) && r.amount == -t.amount)
      && r.pending + r.available == r.amount && r.available <= 0 == r.locked
    case PayoutLock => 0 < r.locked == -r.available && r.amount == 0 == r.pending && r.actsOn == None
    case PayoutSettle =>
      && ActsOnEarlier(rows, j, (t: Row) => t.kind.PayoutLock? && r.locked == -t.locked == r.amount)
      && r.available == 0 == r.pending
    case PayoutRefund =>
      && ActsOnEarlier(rows, j, (t: Row) => t.kind.PayoutLock? && r.locked == -t.locked == -r.available)
      && r.amount == 0 == r.pending
    case ManualAdjustment => r.available == r.amount < 0 && r.pending == 0 == r.locked && r.actsOn == None
  }

  /**
   Two rows acting on one row are a maturation followed by a chargeback: nothing matures twice,
   is charged back twice, matures after its chargeback, or resolves one lock twice.
   */
  ghost predicate ActsAtMostOnce(rows: seq<Row>) {
    forall i, j | 0 <= i < j < |rows| && rows[i].actsOn.Some? && rows[i].actsOn == rows[j].actsOn ::
      rows[i].kind.RewardMaturation? && rows[j].kind.ChargebackDebit?
  }

  ghost predicate Structured(rows: seq<Row>) {
    && (forall j | 0 <= j < |rows| :: WellFormed(rows, j))
    && ActsAtMostOnce(rows)
  }

  /** A balance row is the sum of its user's history, bucket by bucket and total by total. */
  ghost predicate Explained(rows: seq<Row>, u: UserId, b: Balance) {
    && b.pending == Total(rows, u, PendingOf)
    && b.available == Total(rows, u, AvailableOf)
    && b.locked == Total(rows, u, LockedOf)
    && b.lifetime.earned == Total(rows, u, EarnedOf)
    && b.lifetime.withdrawn == Total(rows, u, WithdrawnOf)
    && b.lifetime.reversed == Total(rows, u, ReversedOf)
  }

  /** Where a user's points can be, given what has happened to their credits and locks. */
  ghost predicate Bounded(rows: seq<Row>, u: UserId, b: Balance) {
    && OpenCredits(rows, u) - LateReversals(rows, u) <= b.pending <= OpenCredits(rows, u)
    && b.locked == OpenLocks(rows, u)
    && b.locked + b.lifetime.withdrawn <= Total(rows, u, MaturedOf)
  }

  /** Double entry: what a user's movements are worth is where their points are, and where they came from. */
  ghost predicate Balanced(rows: seq<Row>, u: UserId) {
    Total(rows, u, AmountOf)
    == Total(rows, u, PendingOf) + Total(rows, u, AvailableOf) + Total(rows, u, LockedOf)
    == Total(rows, u, EarnedOf) - Total(rows, u, ReversedOf) - Total(rows, u, WithdrawnOf) - Total(rows, u, DebitedOf)
  }

  /** Everything that left `pending` by maturing is available, locked, withdrawn, debited or clawed back. */
  ghost predicate Released(rows: seq<Row>, u: UserId) {
    && Total(rows, u, AvailableOf) + Total(rows, u, LockedOf) + Total(rows, u, WithdrawnOf)
       + Total(rows, u, DebitedOf) + Total(rows, u, ClawedOf)
       == Total(rows, u, MaturedOf)
    && 0 <= Total(rows, u, DebitedOf) && 0 <= Total(rows, u, ClawedOf)
  }

  ghost predicate Conserved(rows: seq<Row>, u: UserId) {
    Balanced(rows, u) && Released(rows, u)
  }

  ghost predicate Shaped(l: Ledger) {
    && Structured(l.rows)
    && (forall j | 0 <= j < |l.rows| :: l.rows[j].user in l.balances)
  }

  ghost predicate AccountInv(l: Ledger, u: UserId) {
    u in l.balances ==> Explained(l.rows, u, l.balances[u]) && Bounded(l.rows, u, l.balances[u])
  }

  ghost predicate Inv(l: Ledger) {
    && Shaped(l)
    && (forall u: UserId :: AccountInv(l, u))
    && (forall u: UserId :: Conserved(l.rows, u))
  }

  // --- One more row ---------------------------------------------------------

  lemma ActedOnAppend(rows: seq<Row>, r: Row, id: nat, kind: Kind)
    ensures ActedOn(rows + [r], id, kind) <==>
            ActedOn(rows, id, kind) || (r.actsOn == Some(id) && r.kind == kind)
  {
    var more := rows + [r];
    if ActedOn(rows, id, kind) {
      var i :| 0 <= i < |rows| && rows[i].actsOn == Some(id) && rows[i].kind == kind;
      assert more[i] == rows[i];
    }
    if r.actsOn == Some(id) && r.kind == kind {
      assert more[|rows|] == r;
    }
  }

  lemma TotalAppend(rows: seq<Row>, r: Row, u: UserId, pick: Row -> int)
    ensures Total(rows + [r], u, pick) == Total(rows, u, pick) + (if r.user == u then pick(r) else 0)
  {
    SumAgrees(|rows|, Column(rows, u, pick), Column(rows + [r], u, pick));
  }

  /** A fresh row is acted on by nobody: every reference points backwards. */
  lemma NothingActsOnFresh(rows: seq<Row>, kind: Kind)
    requires Structured(rows)
    ensures !ActedOn(rows, |rows|, kind)
  {
    forall i | 0 <= i < |rows| ensures rows[i].actsOn != Some(|rows|) {
      assert WellFormed(rows, i);
    }
  }

  /** A row that acts on nothing only adds its own term to each status-dependent sum. */
  lemma FreshStatusSums(rows: seq<Row>, r: Row, u: UserId)
    requires r.actsOn == None
    ensures var more := rows + [r];
            && OpenCredits(more, u) == OpenCredits(rows, u) + OpenCreditAt(more, u)(|rows|)
            && LateReversals(more, u) == LateReversals(rows, u) + LateReversalAt(more, u)(|rows|)
            && OpenLocks(more, u) == OpenLocks(rows, u) + OpenLockAt(more, u)(|rows|)
  {
    var more, n := rows + [r], |rows|;
    forall i, kind | 0 <= i < n ensures ActedOn(more, i, kind) <==> ActedOn(rows, i, kind) {
      ActedOnAppend(rows, r, i, kind);
    }
    SumAgrees(n, OpenCreditAt(rows, u), OpenCreditAt(more, u));
    SumAgrees(n, LateReversalAt(rows, u), LateReversalAt(more, u));
    SumAgrees(n, OpenLockAt(rows, u), OpenLockAt(more, u));
  }

  /** A row that acts on row c, being no credit and no lock, only changes the term of row c. */
  lemma ActingStatusSums(rows: seq<Row>, r: Row, u: UserId, c: nat)
    requires r.actsOn == Some(c) && c < |rows| && !IsCredit(r.kind) && !r.kind.PayoutLock?
    ensures var more := rows + [r];
            && OpenCredits(more, u) == OpenCredits(rows, u) - OpenCreditAt(rows, u)(c) + OpenCreditAt(more, u)(c)
            && LateReversals(more, u) == LateReversals(rows, u) - LateReversalAt(rows, u)(c) + LateReversalAt(more, u)(c)
            && OpenLocks(more, u) == OpenLocks(rows, u) - OpenLockAt(rows, u)(c) + OpenLockAt(more, u)(c)
  {
    var more, n := rows + [r], |rows|;
    forall i, kind | 0 <= i < n && i != c ensures ActedOn(more, i, kind) <==> ActedOn(rows, i, kind) {
      ActedOnAppend(rows, r, i, kind);
    }
    SumDiffersAt(n, OpenCreditAt(rows, u), OpenCreditAt(more, u), c);
    SumDiffersAt(n, LateReversalAt(rows, u), LateReversalAt(more, u), c);
    SumDiffersAt(n, OpenLockAt(rows, u), OpenLockAt(more, u), c);
  }

  lemma StatusSumsAppend(rows: seq<Row>, r: Row, u: UserId)
    requires WellFormed(rows + [r], |rows|)
    ensures var more := rows + [r];
            match r.actsOn
            case None =>
              && OpenCredits(more, u) == OpenCredits(rows, u) + OpenCreditAt(more, u)(|rows|)
              && LateReversals(more, u) == LateReversals(rows, u) + LateReversalAt(more, u)(|rows|)
              && OpenLocks(more, u) == OpenLocks(rows, u) + OpenLockAt(more, u)(|rows|)
            case Some(c) =>
              && OpenCredits(more, u) == OpenCredits(rows, u) - OpenCreditAt(rows, u)(c) + OpenCreditAt(more, u)(c)
              && LateReversals(more, u)
                 == LateReversals(rows, u) - LateReversalAt(rows, u)(c) + LateReversalAt(more, u)(c)
              && OpenLocks(more, u) == OpenLocks(rows, u) - OpenLockAt(rows, u)(c) + OpenLockAt(more, u)(c)
  {
    if r.actsOn == None {
      FreshStatusSums(rows, r, u);
    } else {
      ActingStatusSums(rows, r, u, r.actsOn.value);
    }
  }

  /** The lifetime totals a movement contributes, as `write` increments them. */
  function LifetimeOf(r: Row): Lifetime {
    Lifetime(EarnedOf(r), WithdrawnOf(r), ReversedOf(r))
  }

  /** A movement an operation may write to a ledger in this state. */
  ghost predicate Admissible(l: Ledger, r: Row) {
    && r.user in l.balances
    && WellFormed(l.rows + [r], |l.rows|)
    && (forall i | 0 <= i < |l.rows| && l.rows[i].actsOn.Some? && l.rows[i].actsOn == r.actsOn ::
          l.rows[i].kind.RewardMaturation? && r.kind.ChargebackDebit?)
    && (r.kind.PayoutLock? ==> r.locked <= l.balances[r.user].available)
    && (r.kind.ChargebackDebit? ==> r.pending == -Min(l.balances[r.user].pending, -r.amount))
  }

  lemma StructuredAppend(rows: seq<Row>, r: Row)
    requires Structured(rows)
    requires WellFormed(rows + [r], |rows|)
    requires forall i | 0 <= i < |rows| && rows[i].actsOn.Some? && rows[i].actsOn == r.actsOn ::
               rows[i].kind.RewardMaturation? && r.kind.ChargebackDebit?
    ensures Structured(rows + [r])
  {
    var more := rows + [r];
    forall j | 0 <= j < |more| ensures WellFormed(more, j) {
      if j < |rows| {
        assert WellFormed(rows, j);
        assert more[j] == rows[j];
      }
    }
  }

  lemma BalancedAppend(rows: seq<Row>, r: Row, u: UserId)
    requires WellFormed(rows + [r], |rows|) && Balanced(rows, u)
    ensures Balanced(rows + [r], u)
  {
    TotalAppend(rows, r, u, AmountOf);
    TotalAppend(rows, r, u, PendingOf);
    TotalAppend(rows, r, u, AvailableOf);
    TotalAppend(rows, r, u, LockedOf);
    TotalAppend(rows, r, u, EarnedOf);
    TotalAppend(rows, r, u, ReversedOf);
    TotalAppend(rows, r, u, WithdrawnOf);
    TotalAppend(rows, r, u, DebitedOf);
  }

  lemma ReleasedAppend(rows: seq<Row>, r: Row, u: UserId)
    requires WellFormed(rows + [r], |rows|) && Released(rows, u)
    ensures Released(rows + [r], u)
  {
    TotalAppend(rows, r, u, AvailableOf);
    TotalAppend(rows, r, u, LockedOf);
    TotalAppend(rows, r, u, WithdrawnOf);
    TotalAppend(rows, r, u, DebitedOf);
    TotalAppend(rows, r, u, MaturedOf);
    TotalAppend(rows, r, u, ClawedOf);
  }

  lemma ExplainedAppend(l: Ledger, r: Row, u: UserId)
    requires r.user in l.balances && u in l.balances
    requires Explained(l.rows, u, l.balances[u])
    ensures Explained(l.rows + [r], u, Write(l, r, LifetimeOf(r)).balances[u])
  {
    TotalAppend(l.rows, r, u, PendingOf);
    TotalAppend(l.rows, r, u, AvailableOf);
    TotalAppend(l.rows, r, u, LockedOf);
    TotalAppend(l.rows, r, u, EarnedOf);
    TotalAppend(l.rows, r, u, WithdrawnOf);
    TotalAppend(l.rows, r, u, ReversedOf);
  }

  /** What an admissible movement does to the three status-dependent sums of its own user. */
  lemma StatusSumsMove(l: Ledger, r: Row)
    requires Structured(l.rows) && Admissible(l, r)
    ensures var more, u := l.rows + [r], r.user;
            && (IsCredit(r.kind) ==>
                  OpenCredits(more, u) == OpenCredits(l.rows, u) + r.amount
                  && LateReversals(more, u) == LateReversals(l.rows, u))
            && (r.kind.RewardMaturation? ==>
                  OpenCredits(more, u) == OpenCredits(l.rows, u) - r.available
                  && LateReversals(more, u) == LateReversals(l.rows, u))
            && (r.kind.ChargebackDebit? ==>
                  if Matured(l.rows, r.actsOn.value) then
                    OpenCredits(more, u) == OpenCredits(l.rows, u)
                    && LateReversals(more, u) == LateReversals(l.rows, u) - r.amount
                  else
                    OpenCredits(more, u) == OpenCredits(l.rows, u) + r.amount
                    && LateReversals(more, u) == LateReversals(l.rows, u))
            && (!IsCredit(r.kind) && !r.kind.RewardMaturation? && !r.kind.ChargebackDebit? ==>
                  OpenCredits(more, u) == OpenCredits(l.rows, u)
                  && LateReversals(more, u) == LateReversals(l.rows, u))
            && OpenLocks(more, u) == OpenLocks(l.rows, u) + r.locked
  {
    var more := l.rows + [r];
    StatusSumsAppend(l.rows, r, r.user);
    forall kind ensures !ActedOn(l.rows, |l.rows|, kind) {
      NothingActsOnFresh(l.rows, kind);
    }
    forall id: nat, kind
      ensures ActedOn(more, id, kind) <==> ActedOn(l.rows, id, kind) || (r.actsOn == Some(id) && r.kind == kind)
    {
      ActedOnAppend(l.rows, r, id, kind);
    }
  }

  /** Nothing moves in the sums of any other user. */
  lemma StatusSumsFrame(l: Ledger, r: Row, u: UserId)
    requires Structured(l.rows) && Admissible(l, r) && u != r.user
    ensures var more := l.rows + [r];
            OpenCredits(more, u) == OpenCredits(l.rows, u)
            && LateReversals(more, u) == LateReversals(l.rows, u)
            && OpenLocks(more, u) == OpenLocks(l.rows, u)
  {
    StatusSumsAppend(l.rows, r, u);
  }

  /** An open credit is part of the open total, so a chargeback never overdraws it. */
  lemma OpenCreditsCover(rows: seq<Row>, u: UserId, c: nat)
    requires Structured(rows)
    ensures 0 <= OpenCredits(rows, u)
    ensures 0 <= LateReversals(rows, u)
    ensures c < |rows| && IsCredit(rows[c].kind) && rows[c].user == u && !Matured(rows, c) && !ChargedBack(rows, c)
            ==> rows[c].amount <= OpenCredits(rows, u)
  {
    forall i | 0 <= i < |rows| ensures 0 <= OpenCreditAt(rows, u)(i) && 0 <= LateReversalAt(rows, u)(i) {
      assert WellFormed(rows, i);
    }
    SumBoundsTerm(|rows|, OpenCreditAt(rows, u), c);
    SumBoundsTerm(|rows|, LateReversalAt(rows, u), c);
  }

  lemma PendingStaysBounded(l: Ledger, r: Row)
    requires Structured(l.rows) && Admissible(l, r)
    requires var b := l.balances[r.user];
             OpenCredits(l.rows, r.user) - LateReversals(l.rows, r.user) <= b.pending <= OpenCredits(l.rows, r.user)
    ensures var more := l.rows + [r];
            OpenCredits(more, r.user) - LateReversals(more, r.user)
            <= l.balances[r.user].pending + r.pending
            <= OpenCredits(more, r.user)
  {
    StatusSumsMove(l, r);
    if r.kind.ChargebackDebit? {
      assert WellFormed(l.rows, r.actsOn.value);
      assert !ChargedBack(l.rows, r.actsOn.value);
      OpenCreditsCover(l.rows, r.user, r.actsOn.value);
    }
  }

  /** A lock takes what is available; a settle or refund only spends what was locked. */
  lemma LocksStayFunded(l: Ledger, r: Row, b: Balance)
    requires Structured(l.rows) && WellFormed(l.rows + [r], |l.rows|)
    requires Conserved(l.rows, r.user) && Explained(l.rows, r.user, b)
    requires b.locked + b.lifetime.withdrawn <= Total(l.rows, r.user, MaturedOf)
    requires r.kind.PayoutLock? ==> r.locked <= b.available
    ensures b.locked + r.locked + b.lifetime.withdrawn + WithdrawnOf(r) <= Total(l.rows + [r], r.user, MaturedOf)
  {
    TotalAppend(l.rows, r, r.user, MaturedOf);
    if r.actsOn.Some? {
      assert WellFormed(l.rows, r.actsOn.value);
    }
    assert b.available + b.locked + b.lifetime.withdrawn <= Total(l.rows, r.user, MaturedOf);
  }

  lemma BoundedOwn(l: Ledger, r: Row)
    requires Inv(l) && Admissible(l, r)
    ensures Bounded(l.rows + [r], r.user, Write(l, r, LifetimeOf(r)).balances[r.user])
  {
    assert AccountInv(l, r.user);
    PendingStaysBounded(l, r);
    StatusSumsMove(l, r);
    LocksStayFunded(l, r, l.balances[r.user]);
  }

  lemma BoundedFrame(l: Ledger, r: Row, u: UserId)
    requires Inv(l) && Admissible(l, r) && u in l.balances && u != r.user
    ensures Bounded(l.rows + [r], u, Write(l, r, LifetimeOf(r)).balances[u])
  {
    assert AccountInv(l, u);
    TotalAppend(l.rows, r, u, MaturedOf);
    StatusSumsFrame(l, r, u);
  }

  lemma AccountAppend(l: Ledger, r: Row, u: UserId)
    requires Inv(l) && Admissible(l, r)
    ensures AccountInv(Write(l, r, LifetimeOf(r)), u)
  {
    if u in l.balances {
      assert AccountInv(l, u);
      ExplainedAppend(l, r, u);
      if u == r.user {
        BoundedOwn(l, r);
      } else {
        BoundedFrame(l, r, u);
      }
    }
  }

  lemma WritePreserves(l: Ledger, r: Row)
    requires Inv(l) && Admissible(l, r)
    ensures Inv(Write(l, r, LifetimeOf(r)))
  {
    var l' := Write(l, r, LifetimeOf(r));
    StructuredAppend(l.rows, r);
    forall u: UserId ensures AccountInv(l', u) {
      AccountAppend(l, r, u);
    }
    forall u: UserId ensures Conserved(l'.rows, u) {
      assert Conserved(l.rows, u);
      BalancedAppend(l.rows, r, u);
      ReleasedAppend(l.rows, r, u);
    }
  }

  // --- Every operation keeps it ---------------------------------------------

  lemma NoHistory(rows: seq<Row>, u: UserId, pick: Row -> int)
    requires forall j | 0 <= j < |rows| :: rows[j].user != u
    ensures Total(rows, u, pick) == 0
  {
    SumIsZero(|rows|, Column(rows, u, pick));
  }

  lemma FreshAccount(rows: seq<Row>, u: UserId)
    requires forall j | 0 <= j < |rows| :: rows[j].user != u
    ensures Explained(rows, u, ZERO_BALANCE) && Bounded(rows, u, ZERO_BALANCE)
  {
    NoHistory(rows, u, PendingOf);
    NoHistory(rows, u, AvailableOf);
    NoHistory(rows, u, LockedOf);
    NoHistory(rows, u, EarnedOf);
    NoHistory(rows, u, WithdrawnOf);
    NoHistory(rows, u, ReversedOf);
    NoHistory(rows, u, MaturedOf);
    SumIsZero(|rows|, OpenCreditAt(rows, u));
    SumIsZero(|rows|, LateReversalAt(rows, u));
    SumIsZero(|rows|, OpenLockAt(rows, u));
  }

  lemma OpenAccountPreserves(l: Ledger, user: UserId)
    requires Inv(l)
    ensures Inv(OpenAccount(l, user))
  {
    var l' := OpenAccount(l, user);
    if user !in l.balances {
      FreshAccount(l.rows, user);
      forall u: UserId ensures AccountInv(l', u) {
        assert AccountInv(l, u);
      }
    }
  }

  lemma {:induction false} SumIsZero(n: nat, f: int -> int)
    requires forall i | 0 <= i < n :: f(i) == 0
    ensures SumTo(n, f) == 0
  {
    if n > 0 {
      SumIsZero(n - 1, f);
    }
  }

  /** The row a successful call appends, if it appends one. */
  ghost predicate Writes(l: Ledger, l': Ledger, r: Row) {
    Admissible(l, r) && l' == Write(l, r, LifetimeOf(r))
  }

  lemma CreditWrites(l: Ledger, user: UserId, kind: Kind, amount: int, source: Source, hold: Option<nat>, now: int)
    requires IsCredit(kind) && Credit(l, user, kind, amount, source, hold, now).Ok?
    ensures var l' := Credit(l, user, kind, amount, source, hold, now).value;
            Writes(l, l', Row(user, kind, amount, amount, 0, 0, source, None, MaturityOf(hold, now), now))
  {
  }

  lemma DebitWrites(l: Ledger, user: UserId, amount: int, source: Source, now: int)
    requires Debit(l, user, amount, source, now).Ok?
    ensures var l' := Debit(l, user, amount, source, now).value;
            Writes(l, l', Row(user, ManualAdjustment, -amount, 0, -amount, 0, source, None, None, now))
  {
  }

  lemma OnlyCreditsPay(rows: seq<Row>, id: nat)
    requires Structured(rows) && id < |rows|
    ensures 0 < rows[id].amount <==> IsCredit(rows[id].kind)
    ensures IsCredit(rows[id].kind) ==> rows[id].pending == rows[id].amount
  {
    assert WellFormed(rows, id);
    if rows[id].actsOn.Some? {
      assert WellFormed(rows, rows[id].actsOn.value);
    }
  }

  /** Only credits are worth a positive amount, so only credits are ever reversed. */
  lemma ReverseWrites(l: Ledger, id: nat, source: Source, now: int)
    requires Shaped(l)
    requires Reverse(l, id, source, now).Ok?
    ensures IsCredit(l.rows[id].kind)
    ensures var l' := Reverse(l, id, source, now).value;
            Writes(l, l', l'.rows[|l.rows|]) && l'.rows[|l.rows|].actsOn == Some(id)
            && l'.rows[|l.rows|].kind.ChargebackDebit?
  {
    OnlyCreditsPay(l.rows, id);
    forall i | 0 <= i < |l.rows| && l.rows[i].actsOn == Some(id) ensures l.rows[i].kind.RewardMaturation? {
      assert WellFormed(l.rows, i);
    }
  }

  lemma MatureWrites(l: Ledger, id: nat, now: int)
    requires Shaped(l)
    requires id < |l.rows| && IsCredit(l.rows[id].kind)
    requires !Matured(l.rows, id) && !ChargedBack(l.rows, id)
    ensures Mature(l, id, now).Ok?
    ensures var l' := Mature(l, id, now).value;
            Writes(l, l', l'.rows[|l.rows|]) && l'.rows[|l.rows|].actsOn == Some(id)
            && l'.rows[|l.rows|].kind.RewardMaturation?
  {
    assert WellFormed(l.rows, id);
    forall i | 0 <= i < |l.rows| ensures l.rows[i].actsOn != Some(id) {
      assert WellFormed(l.rows, i);
    }
  }

  lemma LockWrites(l: Ledger, user: UserId, amount: int, payout: nat, now: int)
    requires Lock(l, user, amount, payout, now).Ok?
    ensures var l' := Lock(l, user, amount, payout, now).value;
            Writes(l, l', Row(user, PayoutLock, 0, 0, -amount, amount, FromPayout(payout), None, None, now))
  {
  }

  lemma ResolveLockWrites(l: Ledger, id: nat, settling: bool, now: int)
    requires Shaped(l)
    requires ResolveLock(l, id, settling, now).Ok?
    ensures var l' := ResolveLock(l, id, settling, now).value;
            Writes(l, l', l'.rows[|l.rows|]) && l'.rows[|l.rows|].actsOn == Some(id)
  {
    assert WellFormed(l.rows, id);
    forall i | 0 <= i < |l.rows| ensures l.rows[i].actsOn != Some(id) {
      assert WellFormed(l.rows, i);
    }
  }

  lemma WrotePreserves(l: Ledger, l': Ledger, r: Row)
    requires Inv(l) && Writes(l, l', r)
    ensures Inv(l') && l.rows <= l'.rows
  {
    WritePreserves(l, r);
  }

  lemma CreditOrDebitPreserves(l: Ledger, op: Op, now: int)
    requires Inv(l) && (op.DoCredit? || op.DoDebit?) && Perform(l, op, now).Ok?
    ensures Inv(Step(l, op, now)) && l.rows <= Step(l, op, now).rows
  {
    var l' := Step(l, op, now);
    match op
    case DoCredit(user, bonus, amount, source, hold) =>
      CreditWrites(l, user, if bonus then Bonus else ConversionCredit, amount, source, hold, now);
      WrotePreserves(l, l', l'.rows[|l.rows|]);
    case DoDebit(user, amount, source) =>
      DebitWrites(l, user, amount, source, now);
      WrotePreserves(l, l', l'.rows[|l.rows|]);
  }

  lemma ReverseOrMaturePreserves(l: Ledger, op: Op, now: int)
    requires Inv(l) && Callable(l, op) && (op.DoReverse? || op.DoMature?)
    requires Perform(l, op, now).Ok? && Step(l, op, now) != l
    ensures Inv(Step(l, op, now)) && l.rows <= Step(l, op, now).rows
  {
    var l' := Step(l, op, now);
    match op
    case DoReverse(id, source) =>
      ReverseWrites(l, id, source, now);
      WrotePreserves(l, l', l'.rows[|l.rows|]);
    case DoMature(id) =>
      MatureWrites(l, id, now);
      WrotePreserves(l, l', l'.rows[|l.rows|]);
  }

  lemma LockOrResolvePreserves(l: Ledger, op: Op, now: int)
    requires Inv(l) && (op.DoLock? || op.DoResolveLock?) && Perform(l, op, now).Ok?
    ensures Inv(Step(l, op, now)) && l.rows <= Step(l, op, now).rows
  {
    var l' := Step(l, op, now);
    match op
    case DoLock(user, amount, payout) =>
      LockWrites(l, user, amount, payout, now);
      WrotePreserves(l, l', l'.rows[|l.rows|]);
    case DoResolveLock(id, settling) =>
      ResolveLockWrites(l, id, settling, now);
      WrotePreserves(l, l', l'.rows[|l.rows|]);
  }

  lemma StepPreserves(l: Ledger, op: Op, now: int)
    requires Inv(l) && Callable(l, op)
    ensures Inv(Step(l, op, now))
    ensures l.rows <= Step(l, op, now).rows
  {
    if Step(l, op, now) != l {
      if op.DoOpenAccount? {
        OpenAccountPreserves(l, op.user);
      } else if op.DoCredit? || op.DoDebit? {
        CreditOrDebitPreserves(l, op, now);
      } else if op.DoReverse? || op.DoMature? {
        ReverseOrMaturePreserves(l, op, now);
      } else {
        LockOrResolvePreserves(l, op, now);
      }
    }
  }

  // --- Over whole runs ------------------------------------------------------

  lemma {:induction false} ReachableInv(ops: seq<(Op, int)>)
    requires CallableRun(ops)
    ensures Inv(After(ops))
  {
    if ops != [] {
      var n := |ops| - 1;
      ReachableInv(ops[..n]);
      StepPreserves(After(ops[..n]), ops[n].0, ops[n].1);
    }
  }

  /**
   Ledger soundness: in every reachable state each bucket is the sum of its deltas, every row's
   amount is the sum of its three, and the lifetime totals account for what is left.
   */
  lemma LedgerSound(ops: seq<(Op, int)>, u: UserId)
    requires CallableRun(ops)
    ensures var l := After(ops);
            && (forall r | r in l.rows :: r.amount == r.pending + r.available + r.locked)
            && (u in l.balances ==>
                  var b := l.balances[u];
                  && b.pending == Total(l.rows, u, PendingOf)
                  && b.available == Total(l.rows, u, AvailableOf)
                  && b.locked == Total(l.rows, u, LockedOf)
                  && b.pending + b.available + b.locked
                     == b.lifetime.earned - b.lifetime.reversed - b.lifetime.withdrawn - Total(l.rows, u, DebitedOf))
  {
    ReachableInv(ops);
    var l := After(ops);
    forall r | r in l.rows ensures r.amount == r.pending + r.available + r.locked {
      var j :| 0 <= j < |l.rows| && l.rows[j] == r;
      assert WellFormed(l.rows, j);
    }
    assert Conserved(l.rows, u) && AccountInv(l, u);
  }

  /** Pending lies between the open credits and those less what was reversed after maturing. */
  lemma PendingBound(ops: seq<(Op, int)>, u: UserId)
    requires CallableRun(ops) && u in After(ops).balances
    ensures var l := After(ops);
            OpenCredits(l.rows, u) - LateReversals(l.rows, u) <= l.balances[u].pending <= OpenCredits(l.rows, u)
  {
    ReachableInv(ops);
    assert AccountInv(After(ops), u);
  }

  /** Points in flight or gone out never exceed what maturation released, chargebacks and debits included. */
  lemma NothingUnmaturedIsWithdrawn(ops: seq<(Op, int)>, u: UserId)
    requires CallableRun(ops) && u in After(ops).balances
    ensures var l := After(ops);
            0 <= l.balances[u].locked
            && l.balances[u].locked + l.balances[u].lifetime.withdrawn <= Total(l.rows, u, MaturedOf)
  {
    ReachableInv(ops);
    assert AccountInv(After(ops), u);
    OpenLocksArePositive(After(ops).rows, u);
  }

  lemma OpenLocksArePositive(rows: seq<Row>, u: UserId)
    requires Structured(rows)
    ensures 0 <= OpenLocks(rows, u)
  {
    forall i | 0 <= i < |rows| ensures 0 <= OpenLockAt(rows, u)(i) {
      assert WellFormed(rows, i);
    }
    SumBoundsTerm(|rows|, OpenLockAt(rows, u), 0);
  }

  // --- When pending is exactly the open credits ------------------------------

  /** No credit of u was charged back after maturing. */
  ghost predicate NeverReversedLate(rows: seq<Row>, u: UserId) {
    forall c | 0 <= c < |rows| && rows[c].user == u && IsCredit(rows[c].kind) :: !(Matured(rows, c) && ChargedBack(rows, c))
  }

  ghost predicate ReversalsSpareAvailable(rows: seq<Row>, u: UserId) {
    forall j | 0 <= j < |rows| && rows[j].user == u && rows[j].kind.ChargebackDebit? :: rows[j].available == 0
  }

  lemma NeverLateMeansExact(l: Ledger, u: UserId)
    requires Inv(l) && u in l.balances && NeverReversedLate(l.rows, u)
    ensures l.balances[u].pending == OpenCredits(l.rows, u) && 0 <= l.balances[u].pending
  {
    assert AccountInv(l, u);
    SumIsZero(|l.rows|, LateReversalAt(l.rows, u));
    OpenCreditsCover(l.rows, u, 0);
  }

  /**
   In a run that reverses no matured credit, pending is exactly the open credits and no reversal
   takes anything from available.
   */
  lemma {:induction false} EarlyReversalsStayInPending(ops: seq<(Op, int)>, u: UserId)
    requires CallableRun(ops) && u in After(ops).balances && NeverReversedLate(After(ops).rows, u)
    ensures After(ops).balances[u].pending == OpenCredits(After(ops).rows, u)
    ensures ReversalsSpareAvailable(After(ops).rows, u)
  {
    ReachableInv(ops);
    NeverLateMeansExact(After(ops), u);
    ReversalsSpare(ops, u);
  }

  lemma {:induction false} ReversalsSpare(ops: seq<(Op, int)>, u: UserId)
    requires CallableRun(ops) && NeverReversedLate(After(ops).rows, u)
    ensures ReversalsSpareAvailable(After(ops).rows, u)
  {
    if ops != [] {
      var n := |ops| - 1;
      var l := After(ops[..n]);
      ReachableInv(ops[..n]);
      StepPreserves(l, ops[n].0, ops[n].1);
      ReversalsSpare(ops[..n], u);
      var (op, now) := ops[n];
      if op.DoReverse? && Reverse(l, op.id, op.source, now).Ok? && l.rows[op.id].user == u {
        ReverseSpares(l, op.id, op.source, now);
      }
    }
  }

  /** An open credit is covered by pending as long as nothing was reversed late. */
  lemma ReverseSpares(l: Ledger, id: nat, source: Source, now: int)
    requires Inv(l) && Reverse(l, id, source, now).Ok?
    requires NeverReversedLate(l.rows, l.rows[id].user)
    requires NeverReversedLate(Reverse(l, id, source, now).value.rows, l.rows[id].user)
    ensures Reverse(l, id, source, now).value.rows[|l.rows|].available == 0
  {
    var l' := Reverse(l, id, source, now).value;
    ReverseWrites(l, id, source, now);
    ActedOnAppend(l.rows, l'.rows[|l.rows|], id, ChargebackDebit);
    ActedOnAppend(l.rows, l'.rows[|l.rows|], id, RewardMaturation);
    assert l'.rows[id] == l.rows[id];
    OpenCreditsCover(l.rows, l.rows[id].user, id);
    NeverLateMeansExact(l, l.rows[id].user);
  }

  /**
   From a non-negative pending, one call makes it negative exactly when it matures an open credit
   larger than what pending still holds.
   */
  lemma PendingTurnsNegative(l: Ledger, op: Op, now: int, u: UserId)
    requires Shaped(l) && Callable(l, op) && u in l.balances && 0 <= l.balances[u].pending
    ensures u in Step(l, op, now).balances
    ensures Step(l, op, now).balances[u].pending < 0 <==>
            && op.DoMature? && op.id < |l.rows| && l.rows[op.id].user == u
            && !Matured(l.rows, op.id) && !ChargedBack(l.rows, op.id)
            && l.balances[u].pending < l.rows[op.id].amount
  {
  }

  const EARLY := Row(7, Bonus, 5, 5, 0, 0, FromSystem, None, Some(0), 0)
  const CLEARED := Row(7, RewardMaturation, 0, -5, 5, 0, FromSystem, Some(0), None, 1)
  const LATER := Row(7, Bonus, 5, 5, 0, 0, FromSystem, None, Some(2), 2)
  const CLAWED := Row(7, ChargebackDebit, -5, -5, 0, 0, FromSystem, Some(0), None, 3)
  const BEFORE_REVERSAL := Ledger(map[7 := Balance(5, 5, 0, Lifetime(10, 0, 0), 3)], [EARLY, CLEARED, LATER])
  const AFTER_REVERSAL := Ledger(map[7 := Balance(0, 5, 0, Lifetime(10, 0, 5), 4)], [EARLY, CLEARED, LATER, CLAWED])

  lemma RunUpToReversal(ops: seq<(Op, int)>)
    requires ops == [(DoOpenAccount(7), 0), (DoCredit(7, true, 5, FromSystem, Some(0)), 0), (DoMature(0), 1),
                     (DoCredit(7, true, 5, FromSystem, Some(0)), 2)]
    ensures AfterIs(ops, BEFORE_REVERSAL)
  {
    var empty := Ledger(map[7 := ZERO_BALANCE], []);
    var credited := Ledger(map[7 := Balance(5, 0, 0, Lifetime(5, 0, 0), 1)], [EARLY]);
    var matured := Ledger(map[7 := Balance(0, 5, 0, Lifetime(5, 0, 0), 2)], [EARLY, CLEARED]);
    assert AfterIs(ops[..0], EMPTY_LEDGER);
    ExtendRun(ops, 0, EMPTY_LEDGER, empty);
    ExtendRun(ops, 1, empty, credited);
    ExtendRun(ops, 2, credited, matured);
    ExtendRun(ops, 3, matured, BEFORE_REVERSAL);
    assert ops[..4] == ops;
  }

  /** It does happen: a late reversal spends the pending points of a credit that then matures. */
  lemma PendingCanBeNegative()
    ensures exists ops :: CallableRun(ops) && 7 in After(ops).balances && After(ops).balances[7].pending < 0
  {
    var start := [(DoOpenAccount(7), 0), (DoCredit(7, true, 5, FromSystem, Some(0)), 0), (DoMature(0), 1),
                  (DoCredit(7, true, 5, FromSystem, Some(0)), 2)];
    RunUpToReversal(start);
    var reversed := start + [(DoReverse(0, FromSystem), 3)];
    assert AfterIs(reversed, AFTER_REVERSAL) by {
      assert reversed[..4] == start;
      assert !ChargedBack(BEFORE_REVERSAL.rows, 0);
      var l := Reverse(BEFORE_REVERSAL, 0, FromSystem, 3).value;
      assert l.balances == AFTER_REVERSAL.balances && l.rows == AFTER_REVERSAL.rows;
    }
    var ops := reversed + [(DoMature(2), 4)];
    assert ops[..5] == reversed;
    assert !ChargedBack(AFTER_REVERSAL.rows, 2) && !Matured(AFTER_REVERSAL.rows, 2);
    assert After(ops).balances[7].pending == -5;
    assert CallableRun(ops);
  }

  ghost predicate AfterIs(ops: seq<(Op, int)>, l: Ledger) {
    CallableRun(ops) && After(ops) == l
  }

  lemma ExtendRun(ops: seq<(Op, int)>, k: nat, l: Ledger, l': Ledger)
    requires k < |ops| && AfterIs(ops[..k], l)
    requires Callable(l, ops[k].0) && Step(l, ops[k].0, ops[k].1) == l'
    ensures AfterIs(ops[..k + 1], l')
  {
    assert ops[..k + 1][..k] == ops[..k];
  }

  /** A row, once written, keeps its place and its stored maturity through every later call. */
  lemma {:induction false} HistoryOnlyGrows(ops: seq<(Op, int)>, k: nat)
    requires CallableRun(ops) && k <= |ops|
    ensures CallableRun(ops[..k]) && After(ops[..k]).rows <= After(ops).rows
  {
    if k < |ops| {
      var n := |ops| - 1;
      HistoryOnlyGrows(ops[..n], k);
      assert ops[..n][..k] == ops[..k];
      ReachableInv(ops[..n]);
      StepPreserves(After(ops[..n]), ops[n].0, ops[n].1);
    } else {
      assert ops[..k] == ops;
    }
  }
}
