/**
 Chargebacks one statement at a time. A reversal looks for an earlier one before it locks the balance,
 so the check and the write of one transaction are two steps, and every other event of the platform
 lands in between.
 */
module ChargebackRaces {
  import opened Wrappers
  import opened Ledgers
  import opened PostbackIntakes
  import opened Conversions
  import opened Platforms
  import opened PlatformInvariants
  import opened PlatformMovements

  /** A transaction between its check and its balance lock: the credit, and whether a reversal was found. */
  datatype Open = Open(credit: nat, found: bool)

  datatype Race = Race(platform: Platform, open: map<nat, Open>)

  datatype Step = Plain(event: Event) | Check(worker: nat) | Commit(worker: nat)

  /** A worker about to commit a chargeback of a conversion that was credited. */
  predicate Reverses(p: Platform, w: nat) {
    && w in p.jobs && p.jobs[w].Ready? && p.jobs[w].postback < |p.books.archive|
    && p.jobs[w].plan.reversalOf.Some? && FindBySource(p.books.ledger.rows, p.jobs[w].plan.reversalOf.value).Some?
  }

  function CreditOf(p: Platform, w: nat): nat
    requires Reverses(p, w)
  {
    FindBySource(p.books.ledger.rows, p.jobs[w].plan.reversalOf.value).value
  }

  /** The transaction from the outcome of its check on: lock, write, insert, mark. */
  function PersistChecked(b: Books, postback: nat, plan: Plan, x: Open, now: int): Result<Books>
    requires postback < |b.archive| && x.credit < |b.ledger.rows|
  {
    if b.ledger.rows[x.credit].amount <= 0 || x.found then Err(InvalidOperation)
    else
      var moved :- TakeBack(b.ledger, x.credit, FromConversion(|b.conversions|), now);
      if PostbackTaken(b.conversions, postback) then Err(UniqueViolation)
      else
        Ok(Books(moved,
                 MarkReversed(b.conversions + [NewConversion(postback, plan)], plan.reversalOf),
                 b.archive[postback := Marked(b.archive[postback], Processed)]))
  }

  predicate CanCommit(r: Race, w: nat) {
    && w in r.open && w in r.platform.jobs && r.platform.jobs[w].Ready?
    && r.platform.jobs[w].postback < |r.platform.books.archive| && r.open[w].credit < |r.platform.books.ledger.rows|
  }

  function Outcome(r: Race, w: nat): Result<Books>
    requires CanCommit(r, w)
  {
    var p := r.platform;
    PersistChecked(p.books, p.jobs[w].postback, p.jobs[w].plan, r.open[w], p.clock)
  }

  ghost predicate Enabled(r: Race, s: Step) {
    match s
    case Plain(e) => Platforms.Enabled(r.platform, e) && !(e.PersistJob? && e.worker in r.open)
    case Check(w) => w !in r.open && Reverses(r.platform, w)
    case Commit(w) => CanCommit(r, w)
  }

  /** A transaction whose worker breaks off or is lost rolls back. */
  function StillOpen(r: Race, p': Platform): map<nat, Open> {
    map w | w in r.open && w in r.platform.jobs && w in p'.jobs && p'.jobs[w] == r.platform.jobs[w] :: r.open[w]
  }

  ghost function Apply(r: Race, s: Step): Race
    requires Enabled(r, s)
  {
    match s
    case Plain(e) =>
      var p' := Platforms.Apply(r.platform, e);
      Race(p', StillOpen(r, p'))
    case Check(w) =>
      var credit := CreditOf(r.platform, w);
      r.(open := r.open[w := Open(credit, ChargedBack(r.platform.books.ledger.rows, credit))])
    case Commit(w) =>
      var p' := Concluded(r.platform, w, Outcome(r, w));
      Race(p', StillOpen(r, p'))
  }

  ghost function Next(r: Race, s: Step): Race {
    if Enabled(r, s) then Apply(r, s) else r
  }

  ghost function After(ss: seq<Step>): Race {
    if ss == [] then Race(INITIAL, map[]) else Next(After(ss[..|ss| - 1]), ss[|ss| - 1])
  }

  // --- An uninterrupted chargeback is the platform's ----------------------------------

  /** Check and commit with nothing in between are the one step the platform takes. */
  lemma UninterruptedIsPersist(r: Race, w: nat, hold: nat)
    requires w !in r.open && Reverses(r.platform, w)
    ensures Next(Next(r, Check(w)), Commit(w)).platform == ApplyPersist(r.platform, w, hold)
  {
    var p := r.platform;
    var checked := Next(r, Check(w));
    assert checked.open[w] == Open(CreditOf(p, w), ChargedBack(p.books.ledger.rows, CreditOf(p, w)));
    assert Outcome(checked, w) == Persist(p.books, p.jobs[w].postback, p.jobs[w].plan, hold, p.clock);
  }

  // --- What every step keeps --------------------------------------------------------

  lemma ArchiveGrows(p: Platform, e: Event)
    requires Platforms.Enabled(p, e)
    ensures |p.books.archive| <= |Platforms.Apply(p, e).books.archive|
  {
    if !Processes(e) && !Delivers(e) {
      OutsideProcessing(p, e);
    }
  }

  lemma CommitExtends(r: Race, w: nat)
    requires CanCommit(r, w)
    ensures var p' := Apply(r, Commit(w)).platform;
            Extends(r.platform.books.ledger, p'.books.ledger) && |p'.books.archive| == |r.platform.books.archive|
  {
  }

  lemma StepExtends(r: Race, s: Step)
    requires Enabled(r, s)
    ensures var b, b' := r.platform.books, Apply(r, s).platform.books;
            Extends(b.ledger, b'.ledger) && |b.archive| <= |b'.archive|
  {
    match s
    case Plain(e) =>
      EventMoves(r.platform, e);
      ArchiveGrows(r.platform, e);
    case Check(_) =>
    case Commit(w) => CommitExtends(r, w);
  }

  lemma ExtendsBacked(l: Ledger, l': Ledger)
    requires AllBacked(l) && Extends(l, l')
    ensures AllBacked(l')
  {
    forall i | 0 <= i < |l'.rows| ensures Backed(l', l'.rows[i]) {
      assert i < |l.rows| ==> Backed(l, l.rows[i]);
    }
  }

  lemma {:induction false} BackedOverRuns(ss: seq<Step>)
    ensures AllBacked(After(ss).platform.books.ledger)
  {
    if ss != [] {
      var n := |ss| - 1;
      var r := After(ss[..n]);
      BackedOverRuns(ss[..n]);
      if Enabled(r, ss[n]) {
        StepExtends(r, ss[n]);
        ExtendsBacked(r.platform.books.ledger, Apply(r, ss[n]).platform.books.ledger);
      }
    }
  }

  lemma {:induction false} GrowsOverRuns(ss: seq<Step>, k: nat)
    requires k <= |ss|
    ensures var b, b' := After(ss[..k]).platform.books, After(ss).platform.books;
            b.ledger.rows <= b'.ledger.rows && |b.archive| <= |b'.archive|
  {
    if k < |ss| {
      var n := |ss| - 1;
      GrowsOverRuns(ss[..n], k);
      assert ss[..n][..k] == ss[..k];
      if Enabled(After(ss[..n]), ss[n]) {
        StepExtends(After(ss[..n]), ss[n]);
      }
    } else {
      assert ss[..k] == ss;
    }
  }

  // --- Which loser reports the winner -------------------------------------------------

  /** Worker w's transaction made its check as the c-th step and is still open. */
  ghost predicate OpenSince(ss: seq<Step>, c: nat, w: nat) {
    && c < |ss| && ss[c] == Check(w) && Enabled(After(ss[..c]), ss[c])
    && forall k | c < k <= |ss| :: w in After(ss[..k]).open
  }

  /** The transaction goes on with what its check found. */
  lemma {:induction false} OpenAsChecked(ss: seq<Step>, c: nat, w: nat)
    requires OpenSince(ss, c, w)
    ensures var was, now := After(ss[..c]), After(ss);
            && Reverses(was.platform, w) && w in now.open
            && now.open[w] == Open(CreditOf(was.platform, w),
                                   ChargedBack(was.platform.books.ledger.rows, CreditOf(was.platform, w)))
            && w in now.platform.jobs && now.platform.jobs[w] == was.platform.jobs[w]
  {
    var n := |ss| - 1;
    assert ss[..|ss|] == ss && w in After(ss[..|ss|]).open;
    if c < n {
      var before := ss[..n];
      assert before[..c] == ss[..c];
      forall k | c < k <= |before| ensures w in After(before[..k]).open {
        assert before[..k] == ss[..k];
      }
      OpenAsChecked(before, c, w);
    }
  }

  ghost function Rows(ss: seq<Step>): seq<Row> {
    After(ss).platform.books.ledger.rows
  }

  /** The f-th step commits the first chargeback of the credit. */
  ghost predicate FirstChargedAt(ss: seq<Step>, f: nat, credit: nat) {
    f < |ss| && !ChargedBack(Rows(ss[..f]), credit) && ChargedBack(Rows(ss[..f + 1]), credit)
  }

  /** Before the first chargeback a check finds nothing, after it the check finds it. */
  lemma CheckAgainstFirst(ss: seq<Step>, c: nat, f: nat, credit: nat)
    requires FirstChargedAt(ss, f, credit) && c <= |ss|
    ensures ChargedBack(Rows(ss[..c]), credit) <==> f < c
  {
    if f < c {
      GrowsOverRuns(ss[..c], f + 1);
      assert ss[..c][..f + 1] == ss[..f + 1];
    } else {
      GrowsOverRuns(ss[..f], c);
      assert ss[..f][..c] == ss[..c];
    }
  }

  /** An open transaction can take its credit back whatever has happened since its check. */
  lemma OpenCanTakeBack(ss: seq<Step>, c: nat, w: nat)
    requires OpenSince(ss, c, w)
    ensures var r := After(ss);
            && CanCommit(r, w)
            && 0 < r.platform.books.ledger.rows[r.open[w].credit].amount
            && r.platform.books.ledger.rows[r.open[w].credit].user in r.platform.books.ledger.balances
  {
    OpenAsChecked(ss, c, w);
    GrowsOverRuns(ss, c);
    BackedOverRuns(ss);
    assert ss[..|ss|] == ss && w in After(ss[..|ss|]).open;
    var r := After(ss);
    assert Backed(r.platform.books.ledger, r.platform.books.ledger.rows[r.open[w].credit]);
  }

  /**
   Once the winner has committed its conversion, the other worker meets the unique index and reports
   the winner if and only if its check came before the credit's first chargeback; after it, the
   worker fails.
   */
  lemma LoserReportsTheWinnerIff(ss: seq<Step>, c: nat, f: nat, w: nat, credit: nat)
    requires OpenSince(ss, c, w) && FirstChargedAt(ss, f, credit)
    requires var r := After(ss);
             && CanCommit(r, w) && r.open[w].credit == credit
             && PostbackTaken(r.platform.books.conversions, r.platform.jobs[w].postback)
    ensures Outcome(After(ss), w) == Err(UniqueViolation) <==> c < f
    ensures Outcome(After(ss), w) == Err(InvalidOperation) <==> f < c
  {
    OpenAsChecked(ss, c, w);
    OpenCanTakeBack(ss, c, w);
    CheckAgainstFirst(ss, c, f, credit);
    assert ss[..c + 1][..c] == ss[..c];
    assert Rows(ss[..c + 1]) == Rows(ss[..c]);
  }

  // --- When one credit is charged back twice --------------------------------------------

  predicate Charges(r: Row, credit: nat) {
    r.kind == ChargebackDebit && r.actsOn == Some(credit)
  }

  predicate ChargedTwice(rows: seq<Row>, credit: nat) {
    exists i, j | 0 <= i < j < |rows| :: Charges(rows[i], credit) && Charges(rows[j], credit)
  }

  /**
   Worker w checked as the c-th step, before the credit's first chargeback as the f-th, and commits
   as the m-th, its postback still without a conversion.
   */
  ghost predicate Overlaps(ss: seq<Step>, c: nat, f: nat, m: nat, w: nat, credit: nat) {
    && c < f < m < |ss| && ss[m] == Commit(w) && OpenSince(ss[..m], c, w) && FirstChargedAt(ss, f, credit)
    && var r := After(ss[..m]);
       && CanCommit(r, w) && r.open[w].credit == credit
       && !PostbackTaken(r.platform.books.conversions, r.platform.jobs[w].postback)
  }

  ghost predicate CommitsStale(r: Race, s: Step, credit: nat) {
    && s.Commit? && Enabled(r, s) && r.open[s.worker].credit == credit && Outcome(r, s.worker).Ok?
    && ChargedBack(r.platform.books.ledger.rows, credit)
  }

  lemma OneMoreRow(rows: seq<Row>, rows': seq<Row>, credit: nat)
    requires rows <= rows' && |rows'| <= |rows| + 1
    ensures ChargedTwice(rows', credit) <==>
            ChargedTwice(rows, credit)
            || (|rows'| == |rows| + 1 && Charges(rows'[|rows|], credit) && ChargedBack(rows, credit))
  {
    if ChargedTwice(rows', credit) && !ChargedTwice(rows, credit) {
      var i, j :| 0 <= i < j < |rows'| && Charges(rows'[i], credit) && Charges(rows'[j], credit);
      assert j == |rows|;
      assert Charges(rows[i], credit);
    }
    if |rows'| == |rows| + 1 && Charges(rows'[|rows|], credit) && ChargedBack(rows, credit) {
      var i :| 0 <= i < |rows| && rows[i].actsOn == Some(credit) && rows[i].kind == ChargebackDebit;
      assert Charges(rows'[i], credit);
    }
  }

  /** Only a commit whose check has gone stale charges a credit a second time. */
  lemma StepChargesTwiceIff(r: Race, s: Step, credit: nat)
    requires Enabled(r, s)
    ensures ChargedTwice(Apply(r, s).platform.books.ledger.rows, credit) <==>
            ChargedTwice(r.platform.books.ledger.rows, credit) || CommitsStale(r, s, credit)
  {
    StepExtends(r, s);
    OneMoreRow(r.platform.books.ledger.rows, Apply(r, s).platform.books.ledger.rows, credit);
    if s.Plain? {
      EventMoves(r.platform, s.event);
    }
  }

  lemma OnlyChecksOpen(r: Race, s: Step, w: nat)
    requires w !in r.open && w in Next(r, s).open
    ensures s == Check(w) && Enabled(r, s)
  {
  }

  /** A transaction that is open was opened by a check. */
  lemma {:induction false} CheckedBefore(ss: seq<Step>, w: nat) returns (c: nat)
    requires w in After(ss).open
    ensures OpenSince(ss, c, w)
  {
    var n := |ss| - 1;
    var before := ss[..n];
    assert ss[..|ss|] == ss;
    if w in After(before).open {
      c := CheckedBefore(before, w);
      assert before[..c] == ss[..c];
      forall k | c < k <= |ss| ensures w in After(ss[..k]).open {
        if k <= n {
          assert before[..k] == ss[..k];
        }
      }
    } else {
      OnlyChecksOpen(After(before), ss[n], w);
      c := n;
    }
  }

  /** A credit that has been charged back has a first chargeback. */
  lemma {:induction false} FirstCharge(ss: seq<Step>, credit: nat) returns (f: nat)
    requires ChargedBack(Rows(ss), credit)
    ensures FirstChargedAt(ss, f, credit)
  {
    var n := |ss| - 1;
    if ChargedBack(Rows(ss[..n]), credit) {
      f := FirstCharge(ss[..n], credit);
      assert ss[..n][..f] == ss[..f] && ss[..n][..f + 1] == ss[..f + 1];
    } else {
      f := n;
      assert ss[..n + 1] == ss;
    }
  }

  /** A commit gone stale is the end of an overlap. */
  lemma StaleOverlaps(ss: seq<Step>, m: nat, credit: nat) returns (c: nat, f: nat)
    requires m < |ss| && CommitsStale(After(ss[..m]), ss[m], credit)
    ensures Overlaps(ss, c, f, m, ss[m].worker, credit)
  {
    var w := ss[m].worker;
    c := CheckedBefore(ss[..m], w);
    f := FirstCharge(ss[..m], credit);
    assert ss[..m][..f] == ss[..f] && ss[..m][..f + 1] == ss[..f + 1] && ss[..m][..c] == ss[..c];
    OpenAsChecked(ss[..m], c, w);
    CheckAgainstFirst(ss[..m], c, f, credit);
    assert ss[..c + 1][..c] == ss[..c];
    assert ss[..m][..c + 1] == ss[..c + 1];
    assert Rows(ss[..c + 1]) == Rows(ss[..c]);
  }

  lemma OverlapIsStale(ss: seq<Step>, c: nat, f: nat, m: nat, w: nat, credit: nat)
    requires Overlaps(ss, c, f, m, w, credit)
    ensures CommitsStale(After(ss[..m]), ss[m], credit)
  {
    assert ss[..m][..f] == ss[..f] && ss[..m][..f + 1] == ss[..f + 1] && ss[..m][..c] == ss[..c];
    OpenAsChecked(ss[..m], c, w);
    OpenCanTakeBack(ss[..m], c, w);
    CheckAgainstFirst(ss[..m], c, f, credit);
    CheckAgainstFirst(ss[..m], m, f, credit);
    assert ss[..m][..m] == ss[..m];
  }

  ghost predicate SomeOverlap(ss: seq<Step>, credit: nat) {
    exists c: nat, f: nat, m: nat, w: nat :: Overlaps(ss, c, f, m, w, credit)
  }

  lemma OverlapLater(ss: seq<Step>, c: nat, f: nat, m: nat, w: nat, credit: nat)
    requires ss != [] && m < |ss| - 1
    ensures Overlaps(ss[..|ss| - 1], c, f, m, w, credit) <==> Overlaps(ss, c, f, m, w, credit)
  {
    var before := ss[..|ss| - 1];
    assert before[..m] == ss[..m];
    if f < m {
      assert before[..f] == ss[..f] && before[..f + 1] == ss[..f + 1];
    }
  }

  lemma OverlapsEarlier(ss: seq<Step>, credit: nat)
    requires ss != [] && SomeOverlap(ss[..|ss| - 1], credit)
    ensures SomeOverlap(ss, credit)
  {
    var c: nat, f: nat, m: nat, w: nat :| Overlaps(ss[..|ss| - 1], c, f, m, w, credit);
    OverlapLater(ss, c, f, m, w, credit);
  }

  lemma OverlapStep(ss: seq<Step>, credit: nat)
    requires ss != []
    ensures var n := |ss| - 1;
            SomeOverlap(ss, credit) <==> SomeOverlap(ss[..n], credit) || CommitsStale(After(ss[..n]), ss[n], credit)
  {
    var n := |ss| - 1;
    if SomeOverlap(ss[..n], credit) {
      OverlapsEarlier(ss, credit);
    } else if CommitsStale(After(ss[..n]), ss[n], credit) {
      var c, f := StaleOverlaps(ss, n, credit);
    } else if SomeOverlap(ss, credit) {
      var c: nat, f: nat, m: nat, w: nat :| Overlaps(ss, c, f, m, w, credit);
      if m == n {
        OverlapIsStale(ss, c, f, m, w, credit);
      } else {
        OverlapLater(ss, c, f, m, w, credit);
      }
      assert false;
    }
  }

  /**
   After every history a credit has been charged back twice if and only if a transaction that checked
   before its first chargeback committed after it, for a postback nobody had converted.
   */
  lemma {:induction false} ChargedTwiceIff(ss: seq<Step>, credit: nat)
    ensures ChargedTwice(Rows(ss), credit) <==> SomeOverlap(ss, credit)
  {
    if ss != [] {
      var n := |ss| - 1;
      ChargedTwiceIff(ss[..n], credit);
      OverlapStep(ss, credit);
      if Enabled(After(ss[..n]), ss[n]) {
        StepChargesTwiceIff(After(ss[..n]), ss[n], credit);
      }
    }
  }

  // --- It happens ---------------------------------------------------------------------

  /** Two workers about to charge back one credit for two postbacks without conversions. */
  ghost predicate BothCharge(r: Race, v: nat, w: nat, credit: nat) {
    && v != w && v !in r.open && w !in r.open && Reverses(r.platform, v) && Reverses(r.platform, w)
    && CreditOf(r.platform, v) == credit && CreditOf(r.platform, w) == credit
    && r.platform.jobs[v].postback != r.platform.jobs[w].postback
    && !PostbackTaken(r.platform.books.conversions, r.platform.jobs[v].postback)
    && !PostbackTaken(r.platform.books.conversions, r.platform.jobs[w].postback)
    && !ChargedBack(r.platform.books.ledger.rows, credit)
  }

  lemma BothCheck(r: Race, v: nat, w: nat, credit: nat)
    requires BothCharge(r, v, w, credit)
    ensures Next(Next(r, Check(v)), Check(w)) == r.(open := r.open[v := Open(credit, false)][w := Open(credit, false)])
  {
  }

  /** The first commit leaves the other's postback without a conversion, and its transaction open. */
  lemma FirstCommits(r: Race, v: nat, w: nat, credit: nat)
    requires BothCharge(r.(open := r.open - {v, w}), v, w, credit) && AllBacked(r.platform.books.ledger)
    requires v in r.open && w in r.open && r.open[v] == Open(credit, false) && r.open[w] == Open(credit, false)
    ensures var r' := Next(r, Commit(v));
            && CanCommit(r', w) && r'.open[w] == Open(credit, false) && AllBacked(r'.platform.books.ledger)
            && r'.platform.jobs[w] == r.platform.jobs[w]
            && !PostbackTaken(r'.platform.books.conversions, r.platform.jobs[w].postback)
            && ChargedBack(r'.platform.books.ledger.rows, credit)
  {
    var b, job := r.platform.books, r.platform.jobs[v];
    assert Backed(b.ledger, b.ledger.rows[credit]);
    assert CanCommit(r, v) && Outcome(r, v).Ok?;
    var b' := Outcome(r, v).value;
    assert b'.ledger.rows[|b.ledger.rows|].actsOn == Some(credit);
    StepExtends(r, Commit(v));
    ExtendsBacked(b.ledger, b'.ledger);
    assert |b'.conversions| == |b.conversions| + 1;
    assert forall k | 0 <= k < |b.conversions| :: b'.conversions[k].postback == b.conversions[k].postback;
  }

  lemma SecondCommits(r: Race, w: nat, credit: nat)
    requires CanCommit(r, w) && r.open[w] == Open(credit, false) && AllBacked(r.platform.books.ledger)
    requires !PostbackTaken(r.platform.books.conversions, r.platform.jobs[w].postback)
    requires ChargedBack(r.platform.books.ledger.rows, credit)
    requires r.platform.books.ledger.rows[credit].kind == ConversionCredit
    ensures ChargedTwice(Next(r, Commit(w)).platform.books.ledger.rows, credit)
  {
    assert Backed(r.platform.books.ledger, r.platform.books.ledger.rows[credit]);
    assert CommitsStale(r, Commit(w), credit);
    StepChargesTwiceIff(r, Commit(w), credit);
  }

  /** Two chargebacks of one conversion that both check before either commits are both committed. */
  lemma TwoChargebacksBothCommit(ss: seq<Step>, v: nat, w: nat, credit: nat)
    requires BothCharge(After(ss), v, w, credit)
    ensures ChargedTwice(Rows(ss + [Check(v)] + [Check(w)] + [Commit(v)] + [Commit(w)]), credit)
  {
    var r := After(ss);
    BackedOverRuns(ss);
    BothCheck(r, v, w, credit);
    var checked := Next(Next(r, Check(v)), Check(w));
    assert checked.open - {v, w} == r.open;
    assert checked.(open := checked.open - {v, w}) == r;
    FirstCommits(checked, v, w, credit);
    StepExtends(checked, Commit(v));
    SecondCommits(Next(checked, Commit(v)), w, credit);
    OneStep(ss, Check(v));
    OneStep(ss + [Check(v)], Check(w));
    OneStep(ss + [Check(v)] + [Check(w)], Commit(v));
    OneStep(ss + [Check(v)] + [Check(w)] + [Commit(v)], Commit(w));
  }

  lemma OneStep(ss: seq<Step>, s: Step)
    ensures After(ss + [s]) == Next(After(ss), s)
  {
    assert (ss + [s])[..|ss|] == ss;
  }

  /** A history of the platform, as a history in which nobody's chargeback is interrupted. */
  function Plainly(es: seq<Event>): seq<Step> {
    if es == [] then [] else Plainly(es[..|es| - 1]) + [Plain(es[|es| - 1])]
  }

  lemma {:induction false} PlainHistory(es: seq<Event>)
    ensures After(Plainly(es)) == Race(Reached(es), map[])
  {
    if es != [] {
      PlainHistory(es[..|es| - 1]);
      OneStep(Plainly(es[..|es| - 1]), Plain(es[|es| - 1]));
    }
  }
}
