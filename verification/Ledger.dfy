/**
 The reward ledger on values: one three-bucket balance row per user and an append-only
 history of signed bucket movements. Ids are history positions, times are milliseconds.
 */
module Ledgers {
  import opened Wrappers
  import opened Sums

  type UserId = nat

  datatype Kind =
    | ConversionCredit
    | ChargebackDebit
    | RewardMaturation
    | PayoutLock
    | PayoutSettle
    | PayoutRefund
    | ManualAdjustment
    | Bonus

  datatype Source = FromConversion(conversion: nat) | FromPayout(payout: nat) | FromAdmin | FromSystem

  /** One movement: what it is worth to the user, and what it does to each bucket. */
  datatype Row = Row(
    user: UserId,
    kind: Kind,
    amount: int,
    pending: int,
    available: int,
    locked: int,
    source: Source,
    actsOn: Option<nat>,
    maturesAt: Option<int>,
    at: int)

  datatype Lifetime = Lifetime(earned: int, withdrawn: int, reversed: int)

  datatype Balance = Balance(pending: int, available: int, locked: int, lifetime: Lifetime, version: nat)

  datatype Ledger = Ledger(balances: map<UserId, Balance>, rows: seq<Row>)

  const ZERO_BALANCE := Balance(0, 0, 0, Lifetime(0, 0, 0), 0)
  const EMPTY_LEDGER := Ledger(map[], [])
  const DAY_MS := 24 * 60 * 60 * 1000

  predicate IsCredit(kind: Kind) {
    kind.ConversionCredit? || kind.Bonus?
  }

  /** Some row of the given kind names this one as the row it acts on. */
  predicate ActedOn(rows: seq<Row>, id: nat, kind: Kind) {
    exists i | 0 <= i < |rows| :: rows[i].actsOn == Some(id) && rows[i].kind == kind
  }

  predicate Matured(rows: seq<Row>, id: nat) {
    ActedOn(rows, id, RewardMaturation)
  }

  predicate ChargedBack(rows: seq<Row>, id: nat) {
    ActedOn(rows, id, ChargebackDebit)
  }

  predicate Resolved(rows: seq<Row>, id: nat) {
    ActedOn(rows, id, PayoutSettle) || ActedOn(rows, id, PayoutRefund)
  }

  // --- The movements each operation writes ----------------------------------

  function Write(l: Ledger, r: Row, lifetime: Lifetime): Ledger
    requires r.user in l.balances
  {
    var b := l.balances[r.user];
    var moved := Balance(
      b.pending + r.pending,
      b.available + r.available,
      b.locked + r.locked,
      Lifetime(
        b.lifetime.earned + lifetime.earned,
        b.lifetime.withdrawn + lifetime.withdrawn,
        b.lifetime.reversed + lifetime.reversed),
      b.version + 1);
    Ledger(l.balances[r.user := moved], l.rows + [r])
  }

  function OpenAccount(l: Ledger, user: UserId): Ledger {
    if user in l.balances then l else l.(balances := l.balances[user := ZERO_BALANCE])
  }

  /** The maturity a credit stores: none for an indefinite hold, otherwise fixed at credit time. */
  function MaturityOf(holdDays: Option<nat>, now: int): Option<int> {
    match holdDays
    case None => None
    case Some(days) => Some(now + days * DAY_MS)
  }

  function Credit(l: Ledger, user: UserId, kind: Kind, amount: int, source: Source, holdDays: Option<nat>, now: int)
    : Result<Ledger>
  {
    if amount <= 0 then Err(InvalidAmount)
    else if user !in l.balances then Err(UserNotFound)
    else
      var r := Row(user, kind, amount, amount, 0, 0, source, None, MaturityOf(holdDays, now), now);
      Ok(Write(l, r, Lifetime(amount, 0, 0)))
  }

  function Debit(l: Ledger, user: UserId, amount: int, source: Source, now: int): Result<Ledger> {
    if amount <= 0 then Err(InvalidAmount)
    else if user !in l.balances then Err(UserNotFound)
    else
      var r := Row(user, ManualAdjustment, -amount, 0, -amount, 0, source, None, None, now);
      Ok(Write(l, r, Lifetime(0, 0, 0)))
  }

  function Reverse(l: Ledger, id: nat, source: Source, now: int): Result<Ledger> {
    if id >= |l.rows| then Err(TransactionNotFound)
    else if l.rows[id].amount <= 0 || ChargedBack(l.rows, id) then Err(InvalidOperation)
    else TakeBack(l, id, source, now)
  }

  /** What a reversal does once it has found nothing against it: lock the balance, then write. */
  function TakeBack(l: Ledger, id: nat, source: Source, now: int): Result<Ledger>
    requires id < |l.rows|
  {
    if l.rows[id].user !in l.balances then Err(UserNotFound)
    else
      var original := l.rows[id];
      var fromPending := Min(l.balances[original.user].pending, original.amount);
      var fromAvailable := original.amount - fromPending;
      var r := Row(original.user, ChargebackDebit, -original.amount, -fromPending, -fromAvailable, 0, source,
                   Some(id), None, now);
      Ok(Write(l, r, Lifetime(0, 0, original.amount)))
  }

  /** A credit that is unknown, already matured or charged back is left as it is. */
  function Mature(l: Ledger, id: nat, now: int): Result<Ledger> {
    if id >= |l.rows| || Matured(l.rows, id) || ChargedBack(l.rows, id) then Ok(l)
    else if l.rows[id].user !in l.balances then Err(UserNotFound)
    else
      var credit := l.rows[id];
      var r := Row(credit.user, RewardMaturation, 0, -credit.amount, credit.amount, 0, FromSystem, Some(id), None, now);
      Ok(Write(l, r, Lifetime(0, 0, 0)))
  }

  function Lock(l: Ledger, user: UserId, amount: int, payout: nat, now: int): Result<Ledger> {
    if amount <= 0 then Err(InvalidAmount)
    else if user !in l.balances then Err(UserNotFound)
    else if l.balances[user].available < amount then Err(InsufficientBalance)
    else
      var r := Row(user, PayoutLock, 0, 0, -amount, amount, FromPayout(payout), None, None, now);
      Ok(Write(l, r, Lifetime(0, 0, 0)))
  }

  function ResolveLock(l: Ledger, id: nat, settling: bool, now: int): Result<Ledger> {
    if id >= |l.rows| || !l.rows[id].kind.PayoutLock? then Err(TransactionNotFound)
    else if Resolved(l.rows, id) then Err(InvalidOperation)
    else if l.rows[id].user !in l.balances then Err(UserNotFound)
    else
      var held := l.rows[id];
      var amount := held.locked;
      var r := Row(
        held.user,
        if settling then PayoutSettle else PayoutRefund,
        if settling then -amount else 0,
        0,
        if settling then 0 else amount,
        -amount,
        held.source, Some(id), None, now);
      Ok(Write(l, r, Lifetime(0, if settling then amount else 0, 0)))
  }

  // --- Runs of the interface, by any caller ---------------------------------

  datatype Op =
    | DoOpenAccount(user: UserId)
    | DoCredit(user: UserId, bonus: bool, amount: int, source: Source, holdDays: Option<nat>)
    | DoDebit(user: UserId, amount: int, source: Source)
    | DoReverse(id: nat, source: Source)
    | DoMature(id: nat)
    | DoLock(user: UserId, amount: int, payout: nat)
    | DoResolveLock(id: nat, settling: bool)

  function Perform(l: Ledger, op: Op, now: int): Result<Ledger> {
    match op
    case DoOpenAccount(user) => Ok(OpenAccount(l, user))
    case DoCredit(user, bonus, amount, source, holdDays) =>
      Credit(l, user, if bonus then Bonus else ConversionCredit, amount, source, holdDays, now)
    case DoDebit(user, amount, source) => Debit(l, user, amount, source, now)
    case DoReverse(id, source) => Reverse(l, id, source, now)
    case DoMature(id) => Mature(l, id, now)
    case DoLock(user, amount, payout) => Lock(l, user, amount, payout, now)
    case DoResolveLock(id, settling) => ResolveLock(l, id, settling, now)
  }

  /** A refused operation rolls back, so it leaves the ledger as it was. */
  function Step(l: Ledger, op: Op, now: int): Ledger {
    match Perform(l, op, now)
    case Ok(l') => l'
    case Err(_) => l
  }

  /** `mature` has no type guard; every caller hands it a credit. */
  predicate Callable(l: Ledger, op: Op) {
    op.DoMature? && op.id < |l.rows| ==> IsCredit(l.rows[op.id].kind)
  }

  /** The ledger after a history of timed calls. */
  function After(ops: seq<(Op, int)>): Ledger {
    if ops == [] then EMPTY_LEDGER
    else
      var last := ops[|ops| - 1];
      Step(After(ops[..|ops| - 1]), last.0, last.1)
  }

  predicate CallableRun(ops: seq<(Op, int)>) {
    ops == [] || (CallableRun(ops[..|ops| - 1]) && Callable(After(ops[..|ops| - 1]), ops[|ops| - 1].0))
  }
}
