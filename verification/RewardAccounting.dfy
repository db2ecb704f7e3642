/**
 The sole owner of balance state: each call locks the user's balance row, appends one history
 row and increments the buckets in place, or refuses and changes nothing.
 */
module RewardAccountings {
  import opened Wrappers
  import opened Sets
  import opened Sums
  import opened Ledgers

  /** How a call that answers with the new row's id realises an operation of the ledger. */
  ghost predicate Realises(before: Ledger, spec: Result<Ledger>, after: Ledger, answer: Result<nat>) {
    match spec
    case Ok(l) => after == l && answer == Ok(|before.rows|)
    case Err(e) => after == before && answer == Err(e)
  }

  const MATURATION_BATCH_SIZE := 500

  predicate Maturable(rows: seq<Row>, now: int, id: nat) {
    && id < |rows| && IsCredit(rows[id].kind)
    && rows[id].maturesAt.Some? && rows[id].maturesAt.value <= now
    && !Matured(rows, id) && !ChargedBack(rows, id)
  }

  /** The earliest-maturing credits whose date has come, at most a batch of them. */
  ghost predicate MaturableBatch(rows: seq<Row>, now: int, ids: seq<nat>) {
    && |ids| <= MATURATION_BATCH_SIZE
    && (forall i | 0 <= i < |ids| :: Maturable(rows, now, ids[i]))
    && (forall i, j | 0 <= i < j < |ids| ::
          ids[i] != ids[j] && rows[ids[i]].maturesAt.value <= rows[ids[j]].maturesAt.value)
    && (forall id: nat | Maturable(rows, now, id) && id !in ids ::
          |ids| == MATURATION_BATCH_SIZE
          && forall i | 0 <= i < |ids| :: rows[ids[i]].maturesAt.value <= rows[id].maturesAt.value)
  }

  // --- Selecting the batch --------------------------------------------------

  /** When a row matures, for ordering those that do. */
  function ByMaturity(rows: seq<Row>): nat -> int {
    (id: nat) => if id < |rows| && rows[id].maturesAt.Some? then rows[id].maturesAt.value else 0
  }

  ghost predicate Dated(rows: seq<Row>, pool: set<nat>) {
    forall id | id in pool :: id < |rows| && rows[id].maturesAt.Some?
  }

  /** The pool's ids by maturity, at most `limit` of them. */
  function SoonestFirst(rows: seq<Row>, pool: set<nat>, limit: nat): seq<nat>
    decreases limit
  {
    if limit == 0 || pool == {} then []
    else
      var m := Least(ByMaturity(rows), pool);
      [m] + SoonestFirst(rows, pool - {m}, limit - 1)
  }

  function FindMaturable(rows: seq<Row>, now: int, limit: nat): seq<nat> {
    var pool := set id | 0 <= id < |rows| && Maturable(rows, now, id);
    SoonestFirst(rows, pool, limit)
  }

  /** In order, without repetition, and whoever is left out comes after everyone taken. */
  ghost predicate SoonestOf(rows: seq<Row>, pool: set<nat>, limit: nat, ids: seq<nat>) {
    && |ids| <= limit
    && (forall i | 0 <= i < |ids| :: ids[i] in pool)
    && (forall i, j | 0 <= i < j < |ids| :: ids[i] != ids[j] && AtMost(ByMaturity(rows), ids[i], ids[j]))
    && (forall id | id in pool && id !in ids :: |ids| == limit && forall i | 0 <= i < |ids| :: AtMost(ByMaturity(rows), ids[i], id))
  }

  lemma {:induction false} SoonestFirstMeans(rows: seq<Row>, pool: set<nat>, limit: nat)
    ensures SoonestOf(rows, pool, limit, SoonestFirst(rows, pool, limit))
    decreases limit
  {
    if limit > 0 && pool != {} {
      var m := Least(ByMaturity(rows), pool);
      var tail := SoonestFirst(rows, pool - {m}, limit - 1);
      SoonestFirstMeans(rows, pool - {m}, limit - 1);
      forall id | id in pool && id !in [m] + tail
        ensures |tail| == limit - 1 && forall i | 0 <= i < |[m] + tail| :: AtMost(ByMaturity(rows), ([m] + tail)[i], id)
      {
        assert id != ([m] + tail)[0];
        assert id !in tail;
      }
    }
  }

  lemma SoonestAreABatch(rows: seq<Row>, now: int, pool: set<nat>, ids: seq<nat>)
    requires forall id: nat :: id in pool <==> Maturable(rows, now, id)
    requires Dated(rows, pool) && SoonestOf(rows, pool, MATURATION_BATCH_SIZE, ids)
    ensures MaturableBatch(rows, now, ids)
  {
  }

  /** The query returns the earliest-maturing open credits whose date has come, at most a batch of them. */
  lemma FindMaturableIsABatch(rows: seq<Row>, now: int)
    ensures MaturableBatch(rows, now, FindMaturable(rows, now, MATURATION_BATCH_SIZE))
  {
    var pool := set id | 0 <= id < |rows| && Maturable(rows, now, id);
    SoonestFirstMeans(rows, pool, MATURATION_BATCH_SIZE);
    SoonestAreABatch(rows, now, pool, SoonestFirst(rows, pool, MATURATION_BATCH_SIZE));
  }

  class RewardAccounting {
    var balances: map<UserId, Balance>
    var rows: seq<Row>

    ghost function State(): Ledger
      reads this
    {
      Ledger(balances, rows)
    }

    constructor ()
      ensures State() == EMPTY_LEDGER
    {
      balances := map[];
      rows := [];
    }

    method OpenAccount(user: UserId)
      modifies this
      ensures State() == Ledgers.OpenAccount(old(State()), user)
    {
      if user !in balances {
        balances := balances[user := ZERO_BALANCE];
      }
    }

    /** Undoes everything since `saved`, as an aborted transaction does. */
    method Rollback(saved: Ledger)
      modifies this
      ensures State() == saved
    {
      balances := saved.balances;
      rows := saved.rows;
    }

    /** The first row of this kind that acts on `id`, searched in history order. */
    method FindActing(id: nat, kind: Kind) returns (found: bool)
      ensures found <==> ActedOn(rows, id, kind)
    {
      for i := 0 to |rows|
        invariant forall j | 0 <= j < i :: !(rows[j].actsOn == Some(id) && rows[j].kind == kind)
      {
        if rows[i].actsOn == Some(id) && rows[i].kind == kind {
          return true;
        }
      }
      return false;
    }

    /** The history row and the balance update, together. */
    method Append(r: Row, lifetime: Lifetime) returns (id: nat)
      requires r.user in balances
      modifies this
      ensures State() == Write(old(State()), r, lifetime) && id == old(|rows|)
    {
      id := |rows|;
      rows := rows + [r];
      var b := balances[r.user];
      var total := Lifetime(b.lifetime.earned + lifetime.earned,
                            b.lifetime.withdrawn + lifetime.withdrawn,
                            b.lifetime.reversed + lifetime.reversed);
      balances := balances[r.user := Balance(b.pending + r.pending, b.available + r.available,
                                             b.locked + r.locked, total, b.version + 1)];
    }

    method Credit(user: UserId, kind: Kind, amount: int, source: Source, holdDays: Option<nat>, now: int)
      returns (answer: Result<nat>)
      modifies this
      ensures Realises(old(State()), Ledgers.Credit(old(State()), user, kind, amount, source, holdDays, now),
                       State(), answer)
    {
      if amount <= 0 {
        return Err(InvalidAmount);
      }
      var maturesAt := None;
      if holdDays.Some? {
        maturesAt := Some(now + holdDays.value * DAY_MS);
      }
      if user !in balances {
        return Err(UserNotFound);
      }
      var id := Append(Row(user, kind, amount, amount, 0, 0, source, None, maturesAt, now), Lifetime(amount, 0, 0));
      return Ok(id);
    }

    method Debit(user: UserId, amount: int, source: Source, now: int) returns (answer: Result<nat>)
      modifies this
      ensures Realises(old(State()), Ledgers.Debit(old(State()), user, amount, source, now), State(), answer)
    {
      if amount <= 0 {
        return Err(InvalidAmount);
      }
      if user !in balances {
        return Err(UserNotFound);
      }
      var id := Append(Row(user, ManualAdjustment, -amount, 0, -amount, 0, source, None, None, now), Lifetime(0, 0, 0));
      return Ok(id);
    }

    method Reverse(id: nat, source: Source, now: int) returns (answer: Result<nat>)
      modifies this
      ensures Realises(old(State()), Ledgers.Reverse(old(State()), id, source, now), State(), answer)
    {
      if id >= |rows| {
        return Err(TransactionNotFound);
      }
      var original := rows[id];
      if original.amount <= 0 {
        return Err(InvalidOperation);
      }
      var already := FindActing(id, ChargebackDebit);
      if already {
        return Err(InvalidOperation);
      }
      if original.user !in balances {
        return Err(UserNotFound);
      }
      var fromPending := Min(balances[original.user].pending, original.amount);
      var fromAvailable := original.amount - fromPending;
      var reversal := Append(
        Row(original.user, ChargebackDebit, -original.amount, -fromPending, -fromAvailable, 0, source, Some(id), None, now),
        Lifetime(0, 0, original.amount));
      return Ok(reversal);
    }

    /** `None` when there is nothing to mature. */
    method Mature(id: nat, now: int) returns (answer: Result<Option<nat>>)
      modifies this
      ensures match Ledgers.Mature(old(State()), id, now)
              case Ok(l) => State() == l && answer == Ok(if l == old(State()) then None else Some(old(|rows|)))
              case Err(e) => State() == old(State()) && answer == Err(e)
    {
      if id >= |rows| {
        return Ok(None);
      }
      var credit := rows[id];
      var matured := FindActing(id, RewardMaturation);
      var reversed := FindActing(id, ChargebackDebit);
      if matured || reversed {
        return Ok(None);
      }
      if credit.user !in balances {
        return Err(UserNotFound);
      }
      var r := Row(credit.user, RewardMaturation, 0, -credit.amount, credit.amount, 0, FromSystem, Some(id), None, now);
      var maturation := Append(r, Lifetime(0, 0, 0));
      assert |rows| == old(|rows|) + 1;
      return Ok(Some(maturation));
    }

    method Lock(user: UserId, amount: int, payout: nat, now: int) returns (answer: Result<nat>)
      modifies this
      ensures Realises(old(State()), Ledgers.Lock(old(State()), user, amount, payout, now), State(), answer)
    {
      if amount <= 0 {
        return Err(InvalidAmount);
      }
      if user !in balances {
        return Err(UserNotFound);
      }
      if balances[user].available < amount {
        return Err(InsufficientBalance);
      }
      var id := Append(Row(user, PayoutLock, 0, 0, -amount, amount, FromPayout(payout), None, None, now), Lifetime(0, 0, 0));
      return Ok(id);
    }

    /** Settling consumes the locked points; refunding returns them to `available`. */
    method ResolveLock(id: nat, settling: bool, now: int) returns (answer: Result<nat>)
      modifies this
      ensures Realises(old(State()), Ledgers.ResolveLock(old(State()), id, settling, now), State(), answer)
    {
      if id >= |rows| || !rows[id].kind.PayoutLock? {
        return Err(TransactionNotFound);
      }
      var held := rows[id];
      var settled := FindActing(id, PayoutSettle);
      var refunded := FindActing(id, PayoutRefund);
      if settled || refunded {
        return Err(InvalidOperation);
      }
      if held.user !in balances {
        return Err(UserNotFound);
      }
      var resolution;
      if settling {
        resolution := Append(Row(held.user, PayoutSettle, -held.locked, 0, 0, -held.locked, held.source, Some(id), None, now),
                             Lifetime(0, held.locked, 0));
      } else {
        resolution := Append(Row(held.user, PayoutRefund, 0, 0, held.locked, -held.locked, held.source, Some(id), None, now),
                             Lifetime(0, 0, 0));
      }
      return Ok(resolution);
    }

    /** Each candidate in a transaction of its own; a failure on one is skipped, not fatal. */
    method MatureAll(candidates: seq<nat>, clock: nat -> int) returns (matured: nat)
      modifies this
      ensures State() == Swept(old(State()), candidates, clock)
      ensures matured == |rows| - |old(rows)|
    {
      matured := 0;
      for i := 0 to |candidates|
        invariant State() == Swept(old(State()), candidates[..i], clock)
        invariant |rows| == |old(rows)| + matured
      {
        var outcome := Mature(candidates[i], clock(i));
        if outcome.Ok? && outcome.value.Some? {
          matured := matured + 1;
        }
        assert candidates[..i + 1][..i] == candidates[..i];
      }
      assert candidates[..|candidates|] == candidates;
    }

    /** One run: the due credits as of `now`, earliest first, matured as the clock goes on. */
    method Sweep(now: int, clock: nat -> int) returns (matured: nat, scanned: nat)
      modifies this
      ensures var candidates := FindMaturable(old(rows), now, MATURATION_BATCH_SIZE);
              scanned == |candidates| && State() == Swept(old(State()), candidates, clock)
      ensures matured == |rows| - |old(rows)|
    {
      var candidates := FindMaturable(rows, now, MATURATION_BATCH_SIZE);
      scanned := |candidates|;
      matured := MatureAll(candidates, clock);
    }
  }

  /** Each candidate matured in turn, at the time the clock showed then. */
  function Swept(l: Ledger, candidates: seq<nat>, clock: nat -> int): Ledger {
    if candidates == [] then l
    else
      var n := |candidates| - 1;
      Step(Swept(l, candidates[..n], clock), DoMature(candidates[n]), clock(n))
  }

  /** A row's user has an account, for every row. */
  predicate Accounted(l: Ledger) {
    forall j | 0 <= j < |l.rows| :: l.rows[j].user in l.balances
  }

  lemma MaturingKeeps(l: Ledger, id: nat, now: int)
    requires Accounted(l) && id < |l.rows| && !ChargedBack(l.rows, id)
    ensures var l' := Step(l, DoMature(id), now);
            && Accounted(l') && Matured(l'.rows, id) && l.rows <= l'.rows
            && forall j: nat :: (Matured(l.rows, j) ==> Matured(l'.rows, j)) && (ChargedBack(l'.rows, j) <==> ChargedBack(l.rows, j))
  {
    var l' := Step(l, DoMature(id), now);
    if !Matured(l.rows, id) {
      var n := |l.rows|;
      assert l'.rows[n].actsOn == Some(id) && l'.rows[n].kind == RewardMaturation;
      forall j: nat ensures Matured(l.rows, j) ==> Matured(l'.rows, j) {
        if Matured(l.rows, j) {
          var i :| 0 <= i < n && l.rows[i].actsOn == Some(j) && l.rows[i].kind == RewardMaturation;
          assert l'.rows[i] == l.rows[i];
        }
      }
      forall j: nat ensures ChargedBack(l'.rows, j) <==> ChargedBack(l.rows, j) {
        if ChargedBack(l.rows, j) {
          var i :| 0 <= i < n && l.rows[i].actsOn == Some(j) && l.rows[i].kind == ChargebackDebit;
          assert l'.rows[i] == l.rows[i];
        }
      }
    }
  }

  /** After a run with nothing in between every credit of its batch has matured. */
  lemma {:induction false} SweptHaveMatured(l: Ledger, candidates: seq<nat>, clock: nat -> int)
    requires Accounted(l) && forall i | 0 <= i < |candidates| :: candidates[i] < |l.rows| && !ChargedBack(l.rows, candidates[i])
    ensures var l' := Swept(l, candidates, clock);
            && Accounted(l') && l.rows <= l'.rows
            && (forall j: nat :: ChargedBack(l'.rows, j) <==> ChargedBack(l.rows, j))
            && forall i | 0 <= i < |candidates| :: Matured(l'.rows, candidates[i])
  {
    if candidates != [] {
      var n := |candidates| - 1;
      SweptHaveMatured(l, candidates[..n], clock);
      MaturingKeeps(Swept(l, candidates[..n], clock), candidates[n], clock(n));
      forall i | 0 <= i < n ensures Matured(Swept(l, candidates, clock).rows, candidates[i]) {
        assert candidates[..n][i] == candidates[i];
      }
    }
  }

  /**
   A run that selects less than a full batch leaves no open credit behind whose date, in milliseconds, was
   reached when it started.
   */
  lemma SweepReleasesWhatIsDue(l: Ledger, now: int, clock: nat -> int, id: nat)
    requires Accounted(l) && |FindMaturable(l.rows, now, MATURATION_BATCH_SIZE)| < 500
    requires id < |l.rows| && (l.rows[id].kind == ConversionCredit || l.rows[id].kind == Bonus)
    requires l.rows[id].maturesAt.Some? && l.rows[id].maturesAt.value <= now && !ActedOn(l.rows, id, ChargebackDebit)
    ensures Matured(Swept(l, FindMaturable(l.rows, now, MATURATION_BATCH_SIZE), clock).rows, id)
  {
    var batch := FindMaturable(l.rows, now, MATURATION_BATCH_SIZE);
    FindMaturableIsABatch(l.rows, now);
    forall i | 0 <= i < |batch| ensures batch[i] < |l.rows| && !ChargedBack(l.rows, batch[i]) {
      assert Maturable(l.rows, now, batch[i]);
    }
    SweptHaveMatured(l, batch, clock);
    if Matured(l.rows, id) {
      StaysMatured(l.rows, Swept(l, batch, clock).rows, id);
    } else {
      assert Maturable(l.rows, now, id);
      assert id in batch;
    }
  }

  lemma StaysMatured(rows: seq<Row>, rows': seq<Row>, id: nat)
    requires rows <= rows' && Matured(rows, id)
    ensures Matured(rows', id)
  {
    var i :| 0 <= i < |rows| && rows[i].actsOn == Some(id) && rows[i].kind == RewardMaturation;
    assert rows'[i] == rows[i];
  }
}
