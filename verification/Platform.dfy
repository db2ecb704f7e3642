/**
 The money machine as one state machine: users, deliveries, workers, admins, withdrawals and
 the maturation sweep interleave freely; each database transaction is one step.
 */
module Platforms {
  import opened Wrappers
  import opened Ledgers
  import opened RewardAccountings
  import opened PostbackIntakes
  import opened Conversions
  import P = Payouts

  /** A worker between loading a postback and writing its outcome. */
  datatype Job =
    | Loaded(postback: nat)
    | Ready(postback: nat, plan: Plan)
    | Ending(postback: nat, outcome: PostbackState)

  /** An admin inside a payout transaction: the request row is locked, its status has been read. */
  datatype RowLock = RowLock(payout: nat, read: P.Status, to: P.Status, review: P.Review)

  /** A settlement that read its request as APPROVED, before its review: whether its payment has run. */
  datatype Settlement = Settlement(payout: nat, paid: bool)

  datatype Platform = Platform(
    clock: int,
    books: Books,
    payouts: seq<P.Payout>,
    reviews: map<nat, RowLock>,
    settlements: map<nat, Settlement>,
    /** Every external payment that ran, with how often. */
    executed: multiset<nat>,
    jobs: map<nat, Job>,
    sweeps: map<nat, seq<nat>>,
    /** Every verified, parsed delivery so far, and the duplicates the index refused but nobody counted yet. */
    delivered: multiset<(nat, nat)>,
    uncounted: multiset<nat>)

  const INITIAL := Platform(0, Books(EMPTY_LEDGER, [], []), [], map[], map[], multiset{}, map[], map[], multiset{}, multiset{})

  datatype Event =
    | Tick(elapsed: nat)
    | Register(user: UserId)
    | GrantBonus(user: UserId, amount: int, hold: Option<nat>)
    | Adjust(user: UserId, amount: int)
    // Intake
    | Deliver(provider: nat, key: nat)
    | DeliverUnparseable(provider: nat)
    | CountDuplicate(postback: nat)
    // Processing
    | StartJob(worker: nat, postback: nat)
    | AttributeJob(worker: nat, reading: Reading, rates: Rates, userIsActive: bool, fraud: Option<FraudAction>)
    | PersistJob(worker: nat, holdDays: nat)
    | BreakJob(worker: nat)
    | MarkJob(worker: nat)
    | LoseJob(worker: nat)
    // Review of held conversions
    | ReviewHold(conversion: nat, decision: Decision)
    // Withdrawals
    | SubmitPayout(submission: P.Submission, policy: P.Policy)
    | BeginSettle(settler: nat, payout: nat)
    | Pay(settler: nat)
    | DropSettle(settler: nat)
    | BeginReview(admin: nat, payout: nat, to: P.Status, review: P.Review)
    | FinishReview(admin: nat)
    | AbortReview(admin: nat)
    // Maturation
    | StartSweep(sweep: nat, candidates: seq<nat>)
    | SweepOne(sweep: nat)

  /** A worker's step. */
  predicate Processes(e: Event) {
    e.StartJob? || e.AttributeJob? || e.PersistJob? || e.BreakJob? || e.MarkJob? || e.LoseJob?
  }

  /** A settlement's step, up to the review it enters. */
  predicate Settles(e: Event) {
    e.BeginSettle? || e.Pay? || e.DropSettle? || e.BeginReview?
  }

  predicate Delivers(e: Event) {
    e.Deliver? || e.DeliverUnparseable? || e.CountDuplicate?
  }

  /** A request is submitted, or a review of one ends. */
  predicate Withdraws(e: Event) {
    e.SubmitPayout? || e.FinishReview? || e.AbortReview?
  }

  // --- Steps ----------------------------------------------------------------

  function WithLedger(p: Platform, moved: Result<Ledger>): Platform {
    match moved
    case Ok(l) => p.(books := p.books.(ledger := l))
    case Err(_) => p
  }

  function ApplyDelivery(p: Platform, provider: nat, key: nat): Platform {
    var seen := p.delivered + multiset{(provider, key)};
    match Find(p.books.archive, provider, key)
    case None => p.(delivered := seen, books := p.books.(archive := p.books.archive + [Fresh(provider, key)]))
    case Some(i) => p.(delivered := seen, uncounted := p.uncounted + multiset{i})
  }

  function ApplyCount(p: Platform, i: nat): Platform
    requires i < |p.books.archive|
  {
    var x := p.books.archive[i];
    p.(uncounted := p.uncounted - multiset{i},
       books := p.books.(archive := p.books.archive[i := x.(duplicates := x.duplicates + 1)]))
  }

  function ApplyAttribution(p: Platform, worker: nat, reading: Reading, rates: Rates, active: bool, fraud: Option<FraudAction>)
    : Platform
    requires worker in p.jobs && p.jobs[worker].postback < |p.books.archive|
  {
    var postback := p.jobs[worker].postback;
    var userKnown := reading.Readable? && reading.click.user in p.books.ledger.balances;
    match Attribute(p.books.conversions, p.books.archive[postback].provider, reading, rates, userKnown, active, fraud)
    case Planned(plan) => p.(jobs := p.jobs[worker := Ready(postback, plan)])
    case Refused(_) => p.(jobs := p.jobs[worker := Ending(postback, Quarantined)])
  }

  /** The loser of the unique-index race reports the winner's row; any other refusal is a failure. */
  function Concluded(p: Platform, worker: nat, outcome: Result<Books>): Platform
    requires worker in p.jobs
  {
    match outcome
    case Ok(b) => p.(books := b, jobs := p.jobs - {worker})
    case Err(UniqueViolation) => p.(jobs := p.jobs - {worker})
    case Err(_) => p.(jobs := p.jobs[worker := Ending(p.jobs[worker].postback, Failed)])
  }

  function ApplyPersist(p: Platform, worker: nat, holdDays: nat): Platform
    requires worker in p.jobs && p.jobs[worker].Ready? && p.jobs[worker].postback < |p.books.archive|
  {
    var job := p.jobs[worker];
    Concluded(p, worker, Persist(p.books, job.postback, job.plan, holdDays, p.clock))
  }

  function ApplyMark(p: Platform, worker: nat): Platform
    requires worker in p.jobs && p.jobs[worker].Ending? && p.jobs[worker].postback < |p.books.archive|
  {
    var job := p.jobs[worker];
    var archive := p.books.archive;
    p.(jobs := p.jobs - {worker},
       books := p.books.(archive := archive[job.postback := Marked(archive[job.postback], job.outcome)]))
  }

  function ApplyReviewHold(p: Platform, id: nat, decision: Decision): Platform {
    match ResolveHold(p.books.ledger, p.books.conversions, id, decision, p.clock)
    case Ok((l, cs)) => p.(books := p.books.(ledger := l, conversions := cs))
    case Err(_) => p
  }

  function ApplySubmit(p: Platform, s: P.Submission, policy: P.Policy): Platform {
    match P.Submit(p.books.ledger, p.payouts, s, policy, p.clock)
    case Ok((l, ps)) => p.(payouts := ps, books := p.books.(ledger := l))
    case Err(_) => p
  }

  /** `SELECT ... FOR UPDATE` on the request row, which nobody else holds; only a payment that ran is marked paid. */
  predicate CanBeginReview(p: Platform, admin: nat, payout: nat, to: P.Status, review: P.Review) {
    && admin !in p.reviews && payout < |p.payouts|
    && (forall a | a in p.reviews :: p.reviews[a].payout != payout)
    && (P.ReasonRequired(to) ==> review.reason != "")
    && (to == P.Paid ==> admin in p.settlements && p.settlements[admin] == Settlement(payout, true))
  }

  function ApplyBeginReview(p: Platform, admin: nat, payout: nat, to: P.Status, review: P.Review): Platform
    requires payout < |p.payouts|
  {
    p.(reviews := p.reviews[admin := RowLock(payout, p.payouts[payout].status, to, review)],
       settlements := if to == P.Paid then p.settlements - {admin} else p.settlements)
  }

  /** The provider is called outside any transaction; nothing is read again. */
  function ApplyPay(p: Platform, settler: nat): Platform
    requires settler in p.settlements
  {
    var i := p.settlements[settler].payout;
    p.(executed := p.executed + multiset{i}, settlements := p.settlements[settler := Settlement(i, true)])
  }

  function ApplyFinish(p: Platform, admin: nat): Platform
    requires admin in p.reviews && p.reviews[admin].payout < |p.payouts|
  {
    var x := p.reviews[admin];
    var done := p.(reviews := p.reviews - {admin});
    match P.Transition(p.books.ledger, p.payouts, x.payout, x.read, x.to, x.review, p.clock)
    case Ok((l, ps)) => done.(payouts := ps, books := p.books.(ledger := l))
    case Err(_) => done
  }

  function ApplySweep(p: Platform, sweep: nat): Platform
    requires sweep in p.sweeps && p.sweeps[sweep] != []
  {
    var todo := p.sweeps[sweep];
    WithLedger(p, Ledgers.Mature(p.books.ledger, todo[0], p.clock)).(sweeps := p.sweeps[sweep := todo[1..]])
  }

  ghost predicate Enabled(p: Platform, e: Event) {
    match e
    case CountDuplicate(i) => i < |p.books.archive| && i in p.uncounted
    case StartJob(w, i) => w !in p.jobs && i < |p.books.archive| && p.books.archive[i].state == Received
    case AttributeJob(w, _, _, _, _) => w in p.jobs && p.jobs[w].Loaded? && p.jobs[w].postback < |p.books.archive|
    case PersistJob(w, _) => w in p.jobs && p.jobs[w].Ready? && p.jobs[w].postback < |p.books.archive|
    case BreakJob(w) => w in p.jobs && !p.jobs[w].Ending?
    case MarkJob(w) => w in p.jobs && p.jobs[w].Ending? && p.jobs[w].postback < |p.books.archive|
    case BeginSettle(a, i) => a !in p.settlements && P.CheckExecution(p.payouts, i).Ok?
    case Pay(a) => a in p.settlements && !p.settlements[a].paid
    case BeginReview(a, i, to, review) => CanBeginReview(p, a, i, to, review)
    case FinishReview(a) => a in p.reviews && p.reviews[a].payout < |p.payouts|
    case StartSweep(s, ids) => s !in p.sweeps && MaturableBatch(p.books.ledger.rows, p.clock, ids)
    case SweepOne(s) => s in p.sweeps && p.sweeps[s] != []
    case _ => true
  }

  ghost function Apply(p: Platform, e: Event): Platform
    requires Enabled(p, e)
  {
    match e
    case Tick(elapsed) => p.(clock := p.clock + elapsed)
    case Register(user) => WithLedger(p, Ok(OpenAccount(p.books.ledger, user)))
    case GrantBonus(user, amount, hold) =>
      WithLedger(p, Ledgers.Credit(p.books.ledger, user, Bonus, amount, FromAdmin, hold, p.clock))
    case Adjust(user, amount) => WithLedger(p, Ledgers.Debit(p.books.ledger, user, amount, FromAdmin, p.clock))
    case Deliver(provider, key) => ApplyDelivery(p, provider, key)
    case DeliverUnparseable(provider) =>
      p.(books := p.books.(archive := p.books.archive + [Postback(provider, None, Unparseable, 0, 0)]))
    case CountDuplicate(i) => ApplyCount(p, i)
    case StartJob(w, i) => p.(jobs := p.jobs[w := Loaded(i)])
    case AttributeJob(w, reading, rates, active, fraud) => ApplyAttribution(p, w, reading, rates, active, fraud)
    case PersistJob(w, hold) => ApplyPersist(p, w, hold)
    case BreakJob(w) => p.(jobs := p.jobs[w := Ending(p.jobs[w].postback, Failed)])
    case MarkJob(w) => ApplyMark(p, w)
    case LoseJob(w) => p.(jobs := p.jobs - {w})
    case ReviewHold(id, decision) => ApplyReviewHold(p, id, decision)
    case SubmitPayout(s, policy) => ApplySubmit(p, s, policy)
    case BeginSettle(a, i) => p.(settlements := p.settlements[a := Settlement(i, false)])
    case Pay(a) => ApplyPay(p, a)
    case DropSettle(a) => p.(settlements := p.settlements - {a})
    case BeginReview(a, i, to, review) => ApplyBeginReview(p, a, i, to, review)
    case FinishReview(a) => ApplyFinish(p, a)
    case AbortReview(a) => p.(reviews := p.reviews - {a})
    case StartSweep(s, ids) => p.(sweeps := p.sweeps[s := ids])
    case SweepOne(s) => ApplySweep(p, s)
  }

  /** An event that cannot happen yet does not happen. */
  ghost function Next(p: Platform, e: Event): Platform {
    if Enabled(p, e) then Apply(p, e) else p
  }

  /** The platform after any history of events. */
  ghost function Reached(es: seq<Event>): Platform {
    if es == [] then INITIAL
    else
      var n := |es| - 1;
      Next(Reached(es[..n]), es[n])
  }
}
