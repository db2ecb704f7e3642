/** What a postback meant: attribution, pricing, the crediting decision and the one transaction that commits it. */
module Conversions {
  import opened Wrappers
  import opened Ledgers
  import opened RewardAccountings
  import opened PostbackIntakes

  datatype ProviderStatus = Confirmed | ProviderPending | ProviderRejected
  datatype FraudAction = Allow | ReviewAccount | Hold | Block
  datatype Status = Pending | Attributed | Credited | Held | Reversed | Rejected
  datatype ConversionKind = Original | Reversal

  datatype Parsed = Parsed(status: ProviderStatus, isReversal: bool, payout: int, currency: string)
  datatype Click = Click(id: nat, user: UserId, provider: nat)
  datatype Rates = Rates(pointsPerMinor: nat, sharePercent: nat, currency: string)

  datatype Conversion = Conversion(
    click: nat,
    user: UserId,
    postback: nat,
    kind: ConversionKind,
    status: Status,
    payout: int,
    currency: string,
    points: int,
    reversalOf: Option<nat>,
    reviewed: bool)

  datatype QuarantineReason =
    | ProviderUnavailable
    | PayloadUnreadable
    | SubIdInvalid
    | ClickNotFound
    | AttributionExpired
    | ProviderMismatch
    | CurrencyMismatch
    | ReversalOriginalNotFound
    | ReversalAmbiguous

  // --- Decisions ------------------------------------------------------------

  /** Floor of the provider payout times the rate times the user's share. */
  function PointsFor(payout: int, rates: Rates): int {
    payout * rates.pointsPerMinor * rates.sharePercent / 100
  }

  function ResolveStatus(said: ProviderStatus, userIsActive: bool, fraud: Option<FraudAction>): Status {
    if said.ProviderRejected? then Rejected
    else if said.ProviderPending? then Pending
    else if !userIsActive then Held
    else if fraud == Some(Block) then Rejected
    else if fraud == Some(Hold) || fraud == Some(ReviewAccount) then Held
    else Attributed
  }

  datatype CreditPlan = CreditPlan(credits: bool, holdIndefinitely: bool)

  function PlanCredit(status: Status, points: int, isReversal: bool): CreditPlan {
    if isReversal || points <= 0 then CreditPlan(false, false)
    else if status == Attributed then CreditPlan(true, false)
    else if status == Held then CreditPlan(true, true)
    else CreditPlan(false, false)
  }

  function StoredStatus(status: Status, plan: CreditPlan): Status {
    if plan.credits && !plan.holdIndefinitely then Credited else status
  }

  function AppliedActionOf(recommended: FraudAction, plan: CreditPlan, stored: Status): FraudAction {
    if stored == Rejected then (if recommended == Block then Block else Allow)
    else if !plan.credits then Allow
    else if plan.holdIndefinitely then (if recommended == ReviewAccount then ReviewAccount else Hold)
    else Allow
  }

  /**
   The whole decision, from what the provider and the engine said to what is stored: points move
   exactly for a confirmed original worth something that no active account had blocked, they are
   withheld exactly when the account was inactive or the engine asked, and the recorded action
   says so. A block is recorded whenever one was recommended on a rejected row, even if it was
   the provider who rejected it.
   */
  lemma DecisionMeaning(said: ProviderStatus, active: bool, recommended: FraudAction, points: int)
    ensures var status := ResolveStatus(said, active, Some(recommended));
            var plan := PlanCredit(status, points, false);
            var stored := StoredStatus(status, plan);
            var applied := AppliedActionOf(recommended, plan, stored);
            && (plan.credits <==> said == Confirmed && 0 < points && !(active && recommended == Block))
            && (plan.holdIndefinitely <==>
                  plan.credits && (!active || recommended == Hold || recommended == ReviewAccount))
            && (stored == Credited <==> plan.credits && !plan.holdIndefinitely)
            && (applied == ReviewAccount <==> plan.holdIndefinitely && recommended == ReviewAccount)
            && (applied == Hold <==> plan.holdIndefinitely && recommended != ReviewAccount)
            && (applied == Block <==>
                  recommended == Block && (said == ProviderRejected || (said == Confirmed && active)))
  {
  }

  // --- Attribution ----------------------------------------------------------

  predicate IsCandidate(c: Conversion, click: nat, parsed: Parsed) {
    c.click == click && c.kind == Original && c.status != Reversed
    && c.payout == parsed.payout && c.currency == parsed.currency
  }

  /** The originals a chargeback could be about, in table order. */
  function Candidates(cs: seq<Conversion>, click: nat, parsed: Parsed): (found: seq<nat>)
    ensures forall i :: i in found <==> 0 <= i < |cs| && IsCandidate(cs[i], click, parsed)
    ensures forall a, b | 0 <= a < b < |found| :: found[a] < found[b]
  {
    if cs == [] then []
    else
      var n := |cs| - 1;
      var earlier := Candidates(cs[..n], click, parsed);
      assert forall a | 0 <= a < |earlier| :: earlier[a] in earlier;
      if IsCandidate(cs[n], click, parsed) then earlier + [n] else earlier
  }

  /** What the worker could establish about the payload before touching any table. */
  datatype Reading = Unreadable(reason: QuarantineReason) | Readable(parsed: Parsed, click: Click)

  datatype Plan = Plan(click: Click, parsed: Parsed, points: int, status: Status, reversalOf: Option<nat>)

  datatype Attribution = Planned(plan: Plan) | Refused(reason: QuarantineReason)

  function Attribute(
    cs: seq<Conversion>, provider: nat, reading: Reading, rates: Rates,
    userKnown: bool, userIsActive: bool, fraud: Option<FraudAction>): Attribution
  {
    match reading
    case Unreadable(reason) => Refused(reason)
    case Readable(parsed, click) =>
      if click.provider != provider then Refused(ProviderMismatch)
      else if parsed.currency != rates.currency then Refused(CurrencyMismatch)
      else if !userKnown then Refused(ClickNotFound)
      else
        var points := PointsFor(parsed.payout, rates);
        if !parsed.isReversal then
          Planned(Plan(click, parsed, points, ResolveStatus(parsed.status, userIsActive, fraud), None))
        else
          var found := Candidates(cs, click.id, parsed);
          if |found| == 0 then Refused(ReversalOriginalNotFound)
          else if |found| > 1 then Refused(ReversalAmbiguous)
          else Planned(Plan(click, parsed, points, ResolveStatus(parsed.status, userIsActive, None), Some(found[0])))
  }

  /** A chargeback is planned exactly against the one conversion it can be about. */
  lemma ReversalNeverGuesses(
    cs: seq<Conversion>, provider: nat, parsed: Parsed, click: Click, rates: Rates, active: bool, fraud: Option<FraudAction>,
    target: nat)
    requires parsed.isReversal && click.provider == provider && parsed.currency == rates.currency
    ensures var a := Attribute(cs, provider, Readable(parsed, click), rates, true, active, fraud);
            a.Planned? && a.plan.reversalOf == Some(target) <==>
            && target < |cs| && IsCandidate(cs[target], click.id, parsed)
            && forall i | 0 <= i < |cs| && IsCandidate(cs[i], click.id, parsed) :: i == target
  {
    var found := Candidates(cs, click.id, parsed);
    if |found| == 1 {
      assert found[0] in found;
    } else if |found| > 1 {
      assert found[0] in found && found[1] in found && found[0] < found[1];
    } else {
      assert forall i :: i !in found;
    }
    if target < |cs| && IsCandidate(cs[target], click.id, parsed) {
      assert target in found;
    }
  }

  /** Why a report is quarantined: the first of these that applies. */
  lemma WhyRefused(
    cs: seq<Conversion>, provider: nat, reading: Reading, rates: Rates, userKnown: bool, active: bool, fraud: Option<FraudAction>)
    ensures var a := Attribute(cs, provider, reading, rates, userKnown, active, fraud);
            if reading.Unreadable? then a == Refused(reading.reason)
            else if reading.click.provider != provider then a == Refused(ProviderMismatch)
            else if reading.parsed.currency != rates.currency then a == Refused(CurrencyMismatch)
            else if !userKnown then a == Refused(ClickNotFound)
            else if !reading.parsed.isReversal then a.Planned?
            else
              && ((forall i | 0 <= i < |cs| :: !IsCandidate(cs[i], reading.click.id, reading.parsed)) <==>
                    a == Refused(ReversalOriginalNotFound))
              && ((exists i, j | 0 <= i < j < |cs| ::
                     IsCandidate(cs[i], reading.click.id, reading.parsed) && IsCandidate(cs[j], reading.click.id, reading.parsed)) <==>
                    a == Refused(ReversalAmbiguous))
  {
    if reading.Readable? && reading.parsed.isReversal {
      var click, parsed := reading.click.id, reading.parsed;
      var found := Candidates(cs, click, parsed);
      if |found| == 0 {
        forall i | 0 <= i < |cs| ensures !IsCandidate(cs[i], click, parsed) {
          assert i !in found;
        }
      } else {
        assert found[0] in found;
        if |found| > 1 {
          assert found[1] in found && found[0] < found[1];
        }
        forall i, j | 0 <= i < j < |cs| && IsCandidate(cs[i], click, parsed) && IsCandidate(cs[j], click, parsed)
          ensures |found| > 1
        {
          assert i in found && j in found;
        }
      }
    }
  }

  // --- The transaction ------------------------------------------------------

  /** The first credit written with this conversion as its source. */
  function FindBySource(rows: seq<Row>, conversion: nat): (found: Option<nat>)
    ensures found.Some? ==> found.value < |rows| && rows[found.value].kind.ConversionCredit?
                            && rows[found.value].source == FromConversion(conversion)
    ensures found.None? ==>
              forall j | 0 <= j < |rows| :: !(rows[j].kind.ConversionCredit? && rows[j].source == FromConversion(conversion))
  {
    if rows == [] then None
    else
      var n := |rows| - 1;
      var earlier := FindBySource(rows[..n], conversion);
      if earlier.Some? then earlier
      else if rows[n].kind.ConversionCredit? && rows[n].source == FromConversion(conversion) then Some(n)
      else None
  }

  /** No earlier row is a credit of the conversion. */
  lemma {:induction false} FindsTheFirst(rows: seq<Row>, conversion: nat, j: nat)
    requires j < |rows| && rows[j].kind.ConversionCredit? && rows[j].source == FromConversion(conversion)
    ensures FindBySource(rows, conversion).Some? && FindBySource(rows, conversion).value <= j
  {
    if j < |rows| - 1 {
      FindsTheFirst(rows[..|rows| - 1], conversion, j);
    }
  }

  /** A conversion that was never credited has nothing to take back. */
  function ReverseRewardFor(l: Ledger, target: nat, reversal: nat, now: int): Result<Ledger> {
    match FindBySource(l.rows, target)
    case None => Ok(l)
    case Some(credit) => Ledgers.Reverse(l, credit, FromConversion(reversal), now)
  }

  predicate PostbackTaken(cs: seq<Conversion>, postback: nat) {
    exists i | 0 <= i < |cs| :: cs[i].postback == postback
  }

  function MarkReversed(cs: seq<Conversion>, target: Option<nat>): seq<Conversion> {
    if target.Some? && target.value < |cs| then cs[target.value := cs[target.value].(status := Reversed)] else cs
  }

  function NewConversion(postback: nat, plan: Plan): Conversion {
    var isReversal := plan.reversalOf.Some?;
    Conversion(plan.click.id, plan.click.user, postback, if isReversal then Reversal else Original,
               StoredStatus(plan.status, PlanCredit(plan.status, plan.points, isReversal)),
               plan.parsed.payout, plan.parsed.currency, plan.points, plan.reversalOf, false)
  }

  datatype Books = Books(ledger: Ledger, conversions: seq<Conversion>, archive: seq<Postback>)

  /** Move the points, insert the conversion, mark the postback: all of it or none of it. */
  function Persist(b: Books, postback: nat, plan: Plan, holdDays: nat, now: int): Result<Books>
    requires postback < |b.archive|
  {
    var id := |b.conversions|;
    var creditPlan := PlanCredit(plan.status, plan.points, plan.reversalOf.Some?);
    var moved :- (
      if creditPlan.credits then
        Ledgers.Credit(b.ledger, plan.click.user, ConversionCredit, plan.points, FromConversion(id),
                       if creditPlan.holdIndefinitely then None else Some(holdDays), now)
      else if plan.reversalOf.Some? then ReverseRewardFor(b.ledger, plan.reversalOf.value, id, now)
      else Ok(b.ledger));
    if PostbackTaken(b.conversions, postback) then Err(UniqueViolation)
    else
      Ok(Books(moved,
               MarkReversed(b.conversions + [NewConversion(postback, plan)], plan.reversalOf),
               b.archive[postback := Marked(b.archive[postback], Processed)]))
  }

  datatype Decision = Clear | Reject

  /** An admin releases a held credit or takes it back; the row lock makes the status it read current. */
  function ResolveHold(l: Ledger, cs: seq<Conversion>, id: nat, decision: Decision, now: int)
    : Result<(Ledger, seq<Conversion>)>
  {
    if id >= |cs| then Err(ConversionNotFound)
    else if cs[id].status != Held then Err(ConversionNotHeld)
    else
      var moved :- (match FindBySource(l.rows, id)
                    case None => Ok(l)
                    case Some(credit) =>
                      if decision == Clear then Ledgers.Mature(l, credit, now)
                      else Ledgers.Reverse(l, credit, FromSystem, now));
      Ok((moved, cs[id := cs[id].(status := if decision == Clear then Credited else Rejected, reviewed := true)]))
  }

  // --- The service ----------------------------------------------------------

  class ConversionsService {
    const rewards: RewardAccounting
    const intake: PostbackIntake
    var conversions: seq<Conversion>

    constructor (rewards: RewardAccounting, intake: PostbackIntake)
      ensures this.rewards == rewards && this.intake == intake && conversions == []
    {
      this.rewards := rewards;
      this.intake := intake;
      conversions := [];
    }

    ghost function State(): Books
      reads this, rewards, intake
    {
      Books(rewards.State(), conversions, intake.archive)
    }

    /** The unique-index insert of a conversion row. */
    method InsertConversion(c: Conversion) returns (answer: Result<nat>)
      modifies this
      ensures if PostbackTaken(old(conversions), c.postback) then
                answer == Err(UniqueViolation) && conversions == old(conversions)
              else answer == Ok(|old(conversions)|) && conversions == old(conversions) + [c]
    {
      if PostbackTaken(conversions, c.postback) {
        return Err(UniqueViolation);
      }
      conversions := conversions + [c];
      return Ok(|conversions| - 1);
    }

    method ReverseReward(target: nat, reversal: nat, now: int) returns (answer: Result<()>)
      modifies rewards
      ensures match ReverseRewardFor(old(rewards.State()), target, reversal, now)
              case Ok(l) => rewards.State() == l && answer == Ok(())
              case Err(e) => rewards.State() == old(rewards.State()) && answer == Err(e)
    {
      var credit := FindBySource(rewards.rows, target);
      if credit.None? {
        return Ok(());
      }
      var reversed := rewards.Reverse(credit.value, FromConversion(reversal), now);
      if reversed.Err? {
        return Err(reversed.error);
      }
      return Ok(());
    }

    method PersistConversion(postback: nat, plan: Plan, holdDays: nat, now: int) returns (answer: Result<nat>)
      requires postback < |intake.archive|
      modifies this, rewards, intake
      ensures match Persist(old(State()), postback, plan, holdDays, now)
              case Ok(b) => State() == b && answer == Ok(|old(conversions)|)
              case Err(e) => State() == old(State()) && answer == Err(e)
    {
      ghost var saved := rewards.State();
      var snapshot := Ledger(rewards.balances, rewards.rows);
      var id := |conversions|;
      var isReversal := plan.reversalOf.Some?;
      var creditPlan := PlanCredit(plan.status, plan.points, isReversal);
      var stored := plan.status;
      if creditPlan.credits && !creditPlan.holdIndefinitely {
        stored := Credited;
      }
      if creditPlan.credits {
        var hold := if creditPlan.holdIndefinitely then None else Some(holdDays);
        var credited := rewards.Credit(plan.click.user, ConversionCredit, plan.points, FromConversion(id), hold, now);
        if credited.Err? {
          return Err(credited.error);
        }
      }
      if isReversal {
        var reversed := ReverseReward(plan.reversalOf.value, id, now);
        if reversed.Err? {
          return Err(reversed.error);
        }
      }
      var inserted := InsertConversion(
        Conversion(plan.click.id, plan.click.user, postback, if isReversal then Reversal else Original, stored,
                   plan.parsed.payout, plan.parsed.currency, plan.points, plan.reversalOf, false));
      if inserted.Err? {
        rewards.Rollback(snapshot);
        return Err(inserted.error);
      }
      if isReversal && plan.reversalOf.value < |conversions| {
        var target := plan.reversalOf.value;
        conversions := conversions[target := conversions[target].(status := Reversed)];
      }
      intake.Mark(postback, Processed);
      return Ok(id);
    }

    method ReviewHold(id: nat, decision: Decision, now: int) returns (answer: Result<Conversion>)
      modifies this, rewards
      ensures match ResolveHold(old(rewards.State()), old(conversions), id, decision, now)
              case Ok((l, cs)) => rewards.State() == l && conversions == cs && answer == Ok(cs[id])
              case Err(e) => rewards.State() == old(rewards.State()) && conversions == old(conversions) && answer == Err(e)
    {
      if id >= |conversions| {
        return Err(ConversionNotFound);
      }
      var locked := conversions[id];
      if locked.status != Held {
        return Err(ConversionNotHeld);
      }
      var credit := FindBySource(rewards.rows, id);
      if decision == Clear {
        if credit.Some? {
          var matured := rewards.Mature(credit.value, now);
          if matured.Err? {
            return Err(matured.error);
          }
        }
        conversions := conversions[id := locked.(status := Credited, reviewed := true)];
      } else {
        if credit.Some? {
          var reversed := rewards.Reverse(credit.value, FromSystem, now);
          if reversed.Err? {
            return Err(reversed.error);
          }
        }
        conversions := conversions[id := locked.(status := Rejected, reviewed := true)];
      }
      return Ok(conversions[id]);
    }
  }
}
