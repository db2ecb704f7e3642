/** The withdrawal state machine, and how each edge keeps, settles or releases a ledger lock. */
module Payouts {
  import opened Wrappers
  import opened Ledgers
  import opened RewardAccountings

  datatype Status = PendingReview | Approved | Paid | Rejected | Failed

  function Permitted(from: Status): set<Status> {
    match from
    case PendingReview => {Approved, Rejected}
    case Approved => {Paid, Failed}
    case _ => {}
  }

  predicate CanTransition(from: Status, to: Status) {
    to in Permitted(from)
  }

  predicate IsTerminal(s: Status) {
    Permitted(s) == {}
  }

  datatype LockEffect = Keep | Settle | Release

  function LockEffectOf(from: Status, to: Status): LockEffect {
    if from == PendingReview && to == Approved then Keep
    else if to == Paid then Settle
    else if to == Rejected || to == Failed then Release
    else Keep
  }

  /** A path of the machine: each status permits the next. */
  predicate IsPath(path: seq<Status>) {
    && path != [] && path[0] == PendingReview
    && forall i | 0 < i < |path| :: CanTransition(path[i - 1], path[i])
  }

  function CountEffect(path: seq<Status>, effect: LockEffect): nat {
    if |path| < 2 then 0
    else
      var n := |path| - 1;
      CountEffect(path[..n], effect) + (if LockEffectOf(path[n - 1], path[n]) == effect then 1 else 0)
  }

  /**
   Along any path from submission the lock is resolved exactly once when the path has ended and
   never before; it is settled exactly when the path ended in PAID.
   */
  lemma {:induction false} ExactlyOneResolution(path: seq<Status>)
    requires IsPath(path)
    ensures var last := path[|path| - 1];
            && CountEffect(path, Settle) == (if last == Paid then 1 else 0)
            && CountEffect(path, Settle) + CountEffect(path, Release) == (if IsTerminal(last) then 1 else 0)
  {
    var n := |path| - 1;
    if n > 0 {
      assert CanTransition(path[n - 1], path[n]);
      ExactlyOneResolution(path[..n]);
    }
  }

  // --- Money ----------------------------------------------------------------

  type Rate = r: int | 1 <= r witness 1

  /** Points to minor units, rounding down. */
  function ToCashMinor(points: int, pointsPerUnit: Rate): int {
    points * 100 / pointsPerUnit
  }

  lemma CashIsRoundedDown(points: int, rate: Rate)
    ensures 100 * points - rate < ToCashMinor(points, rate) * rate <= 100 * points
  {
  }

  /** Splitting one withdrawal into two at the same rate never pays more. */
  lemma SplittingPaysNoMore(a: int, b: int, rate: Rate)
    ensures ToCashMinor(a, rate) + ToCashMinor(b, rate) <= ToCashMinor(a + b, rate)
  {
    CashIsRoundedDown(a, rate);
    CashIsRoundedDown(b, rate);
    CashIsRoundedDown(a + b, rate);
    FewerMultiples(ToCashMinor(a, rate), ToCashMinor(b, rate), ToCashMinor(a + b, rate), rate, 100 * a, 100 * b);
  }

  lemma FewerMultiples(x: int, y: int, z: int, rate: Rate, a: int, b: int)
    requires x * rate <= a && y * rate <= b && a + b < z * rate + rate
    ensures x + y <= z
  {
    assert (x + y) * rate == x * rate + y * rate;
    if z < x + y {
      MoreMultiples(z, x + y, rate);
    }
  }

  lemma MoreMultiples(n: int, m: int, rate: Rate)
    requires n < m
    ensures n * rate + rate <= m * rate
  {
    assert (m - n - 1) * rate >= 0;
  }

  // --- Requests -------------------------------------------------------------

  datatype Payout = Payout(
    user: UserId,
    status: Status,
    amount: int,
    cash: int,
    rate: Rate,
    via: string,
    destination: string,
    lockId: nat,
    reviewedBy: Option<nat>,
    reference: Option<nat>,
    settledAt: Option<int>,
    createdAt: int)

  /** The payout configuration resolved before a submission's transaction opens. */
  datatype Policy = Policy(minimum: int, maximum: int, methods: set<string>, supported: set<string>, rate: Rate, dailyCap: nat)

  /** `destination` is what normalising the entered one gave, absent when it was refused. */
  datatype Submission = Submission(user: UserId, amount: int, via: string, destination: Option<string>)

  datatype Review = Review(admin: nat, reason: string, reference: Option<nat>)

  function RecentRequests(payouts: seq<Payout>, user: UserId, since: int): nat {
    |set i | 0 <= i < |payouts| && payouts[i].user == user && since <= payouts[i].createdAt|
  }

  function CheckSubmission(payouts: seq<Payout>, s: Submission, policy: Policy, now: int): Result<()> {
    if s.via !in policy.methods || s.via !in policy.supported then Err(MethodUnsupported)
    else if s.amount < policy.minimum || policy.maximum < s.amount then Err(AmountOutOfRange)
    else if s.destination.None? then Err(DestinationInvalid)
    else if RecentRequests(payouts, s.user, now - DAY_MS) >= policy.dailyCap then Err(DailyLimitReached)
    else Ok(())
  }

  /** The lock and the request commit together, or neither does. */
  function Submit(l: Ledger, payouts: seq<Payout>, s: Submission, policy: Policy, now: int)
    : Result<(Ledger, seq<Payout>)>
  {
    var _ :- CheckSubmission(payouts, s, policy, now);
    var locked :- Ledgers.Lock(l, s.user, s.amount, |payouts|, now);
    var p := Payout(s.user, PendingReview, s.amount, ToCashMinor(s.amount, policy.rate), policy.rate, s.via,
                    s.destination.value, |l.rows|, None, None, None, now);
    Ok((locked, payouts + [p]))
  }

  predicate ReasonRequired(to: Status) {
    to == Rejected || to == Failed
  }

  function Reviewed(p: Payout, to: Status, review: Review, now: int): Payout {
    var decided := p.(status := to, reviewedBy := Some(review.admin));
    if to == Paid then decided.(settledAt := Some(now), reference := review.reference) else decided
  }

  /** The transition an admin commits, given the status the row lock returned. */
  function Transition(l: Ledger, payouts: seq<Payout>, id: nat, read: Status, to: Status, review: Review, now: int)
    : Result<(Ledger, seq<Payout>)>
    requires id < |payouts|
  {
    if !CanTransition(read, to) then Err(InvalidTransition)
    else
      var moved :- (match LockEffectOf(read, to)
                    case Keep => Ok(l)
                    case Settle => Ledgers.ResolveLock(l, payouts[id].lockId, true, now)
                    case Release => Ledgers.ResolveLock(l, payouts[id].lockId, false, now));
      Ok((moved, payouts[id := Reviewed(payouts[id], to, review, now)]))
  }

  function ApplyTransition(l: Ledger, payouts: seq<Payout>, id: nat, to: Status, review: Review, now: int)
    : Result<(Ledger, seq<Payout>)>
  {
    if ReasonRequired(to) && review.reason == "" then Err(ReasonMissing)
    else if id >= |payouts| then Err(PayoutNotFound)
    else Transition(l, payouts, id, payouts[id].status, to, review, now)
  }

  /** Whether the external payment may run: checked outside any transaction. */
  function CheckExecution(payouts: seq<Payout>, id: nat): Result<()> {
    if id >= |payouts| then Err(PayoutNotFound)
    else if !CanTransition(payouts[id].status, Paid) then Err(InvalidTransition)
    else Ok(())
  }

  // --- The service ----------------------------------------------------------

  class PayoutsService {
    const rewards: RewardAccounting
    var requests: seq<Payout>

    constructor (rewards: RewardAccounting)
      ensures this.rewards == rewards && requests == []
    {
      this.rewards := rewards;
      requests := [];
    }

    method CreateRequest(s: Submission, policy: Policy, now: int) returns (answer: Result<nat>)
      modifies this, rewards
      ensures match Submit(old(rewards.State()), old(requests), s, policy, now)
              case Ok((l, ps)) => rewards.State() == l && requests == ps && answer == Ok(old(|requests|))
              case Err(e) => rewards.State() == old(rewards.State()) && requests == old(requests) && answer == Err(e)
    {
      if s.via !in policy.methods {
        return Err(MethodUnsupported);
      }
      if s.via !in policy.supported {
        return Err(MethodUnsupported);
      }
      if s.amount < policy.minimum || s.amount > policy.maximum {
        return Err(AmountOutOfRange);
      }
      if s.destination.None? {
        return Err(DestinationInvalid);
      }
      var recent := RecentRequests(requests, s.user, now - DAY_MS);
      if recent >= policy.dailyCap {
        return Err(DailyLimitReached);
      }
      var id := |requests|;
      var lock := rewards.Lock(s.user, s.amount, id, now);
      if lock.Err? {
        return Err(lock.error);
      }
      var cash := ToCashMinor(s.amount, policy.rate);
      requests := requests + [Payout(s.user, PendingReview, s.amount, cash, policy.rate, s.via, s.destination.value,
                                     lock.value, None, None, None, now)];
      return Ok(id);
    }

    method Review(id: nat, to: Status, review: Review, now: int) returns (answer: Result<Payout>)
      modifies this, rewards
      ensures match ApplyTransition(old(rewards.State()), old(requests), id, to, review, now)
              case Ok((l, ps)) => rewards.State() == l && requests == ps && answer == Ok(ps[id])
              case Err(e) => rewards.State() == old(rewards.State()) && requests == old(requests) && answer == Err(e)
    {
      if ReasonRequired(to) && |review.reason| == 0 {
        return Err(ReasonMissing);
      }
      if id >= |requests| {
        return Err(PayoutNotFound);
      }
      var current := requests[id].status;
      if !CanTransition(current, to) {
        return Err(InvalidTransition);
      }
      var payout := requests[id];
      var effect := LockEffectOf(current, to);
      if effect == Settle {
        var settled := rewards.ResolveLock(payout.lockId, true, now);
        if settled.Err? {
          return Err(settled.error);
        }
      } else if effect == Release {
        var released := rewards.ResolveLock(payout.lockId, false, now);
        if released.Err? {
          return Err(released.error);
        }
      }
      var updated := payout.(status := to, reviewedBy := Some(review.admin));
      if to == Paid {
        updated := updated.(settledAt := Some(now), reference := review.reference);
      }
      requests := requests[id := updated];
      return Ok(updated);
    }
  }
}
