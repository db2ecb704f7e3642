/** What a postback's state says about its conversion, after any history of workers. */
module PostbackTheorems {
  import opened Wrappers
  import opened Ledgers
  import opened PostbackIntakes
  import opened Conversions
  import opened Platforms
  import opened PlatformInvariants

  // --- What one event does to one postback ------------------------------------

  predicate WorkedOn(jobs: map<nat, Job>, postback: nat) {
    exists w | w in jobs :: jobs[w].postback == postback
  }

  ghost predicate Commits(p: Platform, e: Event, i: nat) {
    && e.PersistJob? && Enabled(p, e) && p.jobs[e.worker].postback == i
    && Persist(p.books, i, p.jobs[e.worker].plan, e.holdDays, p.clock).Ok?
  }

  ghost predicate Marks(p: Platform, e: Event, i: nat) {
    e.MarkJob? && Enabled(p, e) && p.jobs[e.worker].postback == i
  }

  ghost predicate SameFor(p: Platform, p': Platform, i: nat)
    requires i < |p.books.archive|
  {
    && i < |p'.books.archive| && p'.books.archive[i].state == p.books.archive[i].state
    && (PostbackTaken(p'.books.conversions, i) <==> PostbackTaken(p.books.conversions, i))
  }

  lemma SamePostbacks(cs: seq<Conversion>, cs': seq<Conversion>, i: nat)
    requires |cs| <= |cs'| && forall k | 0 <= k < |cs| :: cs'[k].postback == cs[k].postback
    requires forall k | |cs| <= k < |cs'| :: cs'[k].postback != i
    ensures PostbackTaken(cs', i) <==> PostbackTaken(cs, i)
  {
  }

  lemma CommitShape(b: Books, postback: nat, plan: Plan, hold: nat, now: int)
    requires postback < |b.archive| && Persist(b, postback, plan, hold, now).Ok?
    ensures !PostbackTaken(b.conversions, postback)
    ensures var b' := Persist(b, postback, plan, hold, now).value;
            && b'.archive == b.archive[postback := Marked(b.archive[postback], Processed)]
            && |b'.conversions| == |b.conversions| + 1
            && (forall k | 0 <= k < |b.conversions| :: b'.conversions[k].postback == b.conversions[k].postback)
            && b'.conversions[|b.conversions|].postback == postback
  {
  }

  lemma PersistKeepsOthers(p: Platform, w: nat, hold: nat, i: nat)
    requires Enabled(p, PersistJob(w, hold)) && i < |p.books.archive| && !Commits(p, PersistJob(w, hold), i)
    ensures SameFor(p, ApplyPersist(p, w, hold), i)
  {
    var job := p.jobs[w];
    if Persist(p.books, job.postback, job.plan, hold, p.clock).Ok? {
      CommitShape(p.books, job.postback, job.plan, hold, p.clock);
      SamePostbacks(p.books.conversions, ApplyPersist(p, w, hold).books.conversions, i);
    } else {
      RefusedPersist(p, w, hold);
    }
  }

  lemma ReviewKeepsPostbacks(l: Ledger, cs: seq<Conversion>, id: nat, decision: Decision, now: int)
    requires ResolveHold(l, cs, id, decision, now).Ok?
    ensures var cs' := ResolveHold(l, cs, id, decision, now).value.1;
            |cs'| == |cs| && forall k | 0 <= k < |cs| :: cs'[k].postback == cs[k].postback
  {
  }

  /** Only its own commit or its own mark changes what is known of a postback. */
  lemma OthersKeepPostback(p: Platform, e: Event, i: nat)
    requires Enabled(p, e) && i < |p.books.archive| && !Commits(p, e, i) && !Marks(p, e, i)
    ensures SameFor(p, Apply(p, e), i)
  {
    if e.PersistJob? {
      PersistKeepsOthers(p, e.worker, e.holdDays, i);
    } else if e.ReviewHold? && ResolveHold(p.books.ledger, p.books.conversions, e.conversion, e.decision, p.clock).Ok? {
      ReviewKeepsPostbacks(p.books.ledger, p.books.conversions, e.conversion, e.decision, p.clock);
      SamePostbacks(p.books.conversions, Apply(p, e).books.conversions, i);
    }
  }

  lemma CommitConverts(p: Platform, e: Event, i: nat)
    requires Commits(p, e, i)
    ensures var p' := Apply(p, e);
            && i < |p.books.archive| && !PostbackTaken(p.books.conversions, i)
            && i < |p'.books.archive| && p'.books.archive[i].state == Processed && PostbackTaken(p'.books.conversions, i)
  {
    CommitShape(p.books, i, p.jobs[e.worker].plan, e.holdDays, p.clock);
    assert Apply(p, e).books.conversions[|p.books.conversions|].postback == i;
  }

  lemma MarkMarks(p: Platform, e: Event, i: nat)
    requires Marks(p, e, i) && JobsInv(p.jobs, p.books)
    ensures var p' := Apply(p, e);
            && i < |p'.books.archive| && p'.books.archive[i].state != Processed && p'.books.conversions == p.books.conversions
  {
  }

  // --- Every outcome is an attempt --------------------------------------------

  /** How many outcomes, commits and marks, the events have written for a postback. */
  ghost function Outcomes(es: seq<Event>, i: nat): nat {
    if es == [] then 0
    else
      var n := |es| - 1;
      Outcomes(es[..n], i)
      + if Commits(Reached(es[..n]), es[n], i) || Marks(Reached(es[..n]), es[n], i) then 1 else 0
  }

  function AttemptsOn(p: Platform, i: nat): nat {
    if i < |p.books.archive| then p.books.archive[i].attempts else 0
  }

  lemma PersistAttempts(p: Platform, w: nat, hold: nat, i: nat)
    requires Enabled(p, PersistJob(w, hold)) && JobsInv(p.jobs, p.books)
    ensures AttemptsOn(ApplyPersist(p, w, hold), i) == AttemptsOn(p, i) + if Commits(p, PersistJob(w, hold), i) then 1 else 0
  {
    var job := p.jobs[w];
    if Persist(p.books, job.postback, job.plan, hold, p.clock).Ok? {
      CommitShape(p.books, job.postback, job.plan, hold, p.clock);
    } else {
      RefusedPersist(p, w, hold);
    }
  }

  lemma ProcessingAttempts(p: Platform, e: Event, i: nat)
    requires Enabled(p, e) && JobsInv(p.jobs, p.books) && Processes(e) && !e.PersistJob?
    ensures AttemptsOn(Apply(p, e), i) == AttemptsOn(p, i) + if Marks(p, e, i) then 1 else 0
  {
  }

  lemma DeliveryAttempts(p: Platform, e: Event, i: nat)
    requires Enabled(p, e) && !Processes(e)
    ensures AttemptsOn(Apply(p, e), i) == AttemptsOn(p, i)
  {
    if !Delivers(e) {
      OutsideProcessing(p, e);
    }
  }

  /** After any history the attempts on a row are the outcomes written for it, and an untouched one has none. */
  lemma {:induction false} AttemptsAreOutcomes(es: seq<Event>, i: nat)
    ensures AttemptsOn(Reached(es), i) == Outcomes(es, i)
  {
    if es != [] {
      var n := |es| - 1;
      var p, e := Reached(es[..n]), es[n];
      AttemptsAreOutcomes(es[..n], i);
      JobsOf(es[..n]);
      if Enabled(p, e) {
        if e.PersistJob? {
          PersistAttempts(p, e.worker, e.holdDays, i);
        } else if Processes(e) {
          ProcessingAttempts(p, e, i);
        } else {
          DeliveryAttempts(p, e, i);
        }
      }
    }
  }

  // --- Exactly when PROCESSED means converted -----------------------------------

  /** The m-th event marks a postback whose conversion some worker had already committed. */
  ghost predicate MarksLate(es: seq<Event>, m: nat, i: nat) {
    m < |es| && Marks(Reached(es[..m]), es[m], i) && PostbackTaken(Reached(es[..m]).books.conversions, i)
  }

  ghost predicate MarkedLate(es: seq<Event>, i: nat) {
    exists m: nat :: MarksLate(es, m, i)
  }

  lemma MarkedLateStep(es: seq<Event>, i: nat)
    requires es != []
    ensures var n := |es| - 1;
            MarkedLate(es, i) <==>
              MarkedLate(es[..n], i) || (Marks(Reached(es[..n]), es[n], i) && PostbackTaken(Reached(es[..n]).books.conversions, i))
  {
    var n := |es| - 1;
    if MarkedLate(es[..n], i) {
      var m: nat :| MarksLate(es[..n], m, i);
      assert es[..n][..m] == es[..m];
      assert MarksLate(es, m, i);
    }
    if MarkedLate(es, i) {
      var m: nat :| MarksLate(es, m, i);
      if m < n {
        assert es[..n][..m] == es[..m];
        assert MarksLate(es[..n], m, i);
      }
    }
    if Marks(Reached(es[..n]), es[n], i) && PostbackTaken(Reached(es[..n]).books.conversions, i) {
      assert MarksLate(es, n, i);
    }
  }

  ghost predicate ProcessedExactly(p: Platform, i: nat, late: bool) {
    && (late ==> PostbackTaken(p.books.conversions, i))
    && (PostbackTaken(p.books.conversions, i) ==> i < |p.books.archive|)
    && (i < |p.books.archive| ==> (p.books.archive[i].state == Processed <==> PostbackTaken(p.books.conversions, i) && !late))
  }

  lemma PersistSparesFreshRows(p: Platform, w: nat, hold: nat, i: nat)
    requires Enabled(p, PersistJob(w, hold)) && |p.books.archive| <= i && !PostbackTaken(p.books.conversions, i)
    ensures var p' := ApplyPersist(p, w, hold);
            !PostbackTaken(p'.books.conversions, i) && |p'.books.archive| == |p.books.archive|
  {
    var job := p.jobs[w];
    if Persist(p.books, job.postback, job.plan, hold, p.clock).Ok? {
      CommitShape(p.books, job.postback, job.plan, hold, p.clock);
      SamePostbacks(p.books.conversions, ApplyPersist(p, w, hold).books.conversions, i);
    } else {
      RefusedPersist(p, w, hold);
    }
  }

  lemma FreshRowsAreUnconverted(p: Platform, e: Event, i: nat)
    requires Enabled(p, e) && |p.books.archive| <= i && !PostbackTaken(p.books.conversions, i)
    ensures !PostbackTaken(Apply(p, e).books.conversions, i)
    ensures i < |Apply(p, e).books.archive| ==> Apply(p, e).books.archive[i].state != Processed
  {
    if e.PersistJob? {
      PersistSparesFreshRows(p, e.worker, e.holdDays, i);
    } else if !Processes(e) {
      OutsideProcessing(p, e);
      if e.ReviewHold? && ResolveHold(p.books.ledger, p.books.conversions, e.conversion, e.decision, p.clock).Ok? {
        ReviewKeepsPostbacks(p.books.ledger, p.books.conversions, e.conversion, e.decision, p.clock);
        SamePostbacks(p.books.conversions, Apply(p, e).books.conversions, i);
      }
    }
  }

  lemma ProcessedStep(p: Platform, e: Event, i: nat, late: bool)
    requires Enabled(p, e) && JobsInv(p.jobs, p.books) && ProcessedExactly(p, i, late)
    ensures ProcessedExactly(Apply(p, e), i, late || (Marks(p, e, i) && PostbackTaken(p.books.conversions, i)))
  {
    if Marks(p, e, i) {
      MarkMarks(p, e, i);
    } else if Commits(p, e, i) {
      CommitConverts(p, e, i);
    } else if i < |p.books.archive| {
      OthersKeepPostback(p, e, i);
    } else {
      FreshRowsAreUnconverted(p, e, i);
    }
  }

  lemma {:induction false} ProcessedOverRuns(es: seq<Event>, i: nat)
    ensures ProcessedExactly(Reached(es), i, MarkedLate(es, i))
  {
    if es != [] {
      var n := |es| - 1;
      ProcessedOverRuns(es[..n], i);
      JobsOf(es[..n]);
      MarkedLateStep(es, i);
      if Enabled(Reached(es[..n]), es[n]) {
        ProcessedStep(Reached(es[..n]), es[n], i, MarkedLate(es[..n], i));
      }
    }
  }

  /**
   After every history a postback is PROCESSED exactly when its conversion exists and no worker
   marked it after the commit; a converted postback is not PROCESSED exactly when one did.
   */
  lemma {:induction false} ProcessedIff(es: seq<Event>, i: nat)
    requires i < |Reached(es).books.archive|
    ensures var p := Reached(es);
            && (p.books.archive[i].state == Processed <==> PostbackTaken(p.books.conversions, i) && !MarkedLate(es, i))
            && (PostbackTaken(p.books.conversions, i) ==> (p.books.archive[i].state != Processed <==> MarkedLate(es, i)))
  {
    ProcessedOverRuns(es, i);
  }

  // --- One worker per postback --------------------------------------------------

  /** No worker starts on a postback another one still holds. */
  ghost predicate ExclusiveRun(es: seq<Event>) {
    es == []
    || (var n := |es| - 1;
        && ExclusiveRun(es[..n])
        && (es[n].StartJob? ==> !WorkedOn(Reached(es[..n]).jobs, es[n].postback)))
  }

  lemma {:induction false} ExclusivePrefix(es: seq<Event>, m: nat)
    requires ExclusiveRun(es) && m <= |es|
    ensures ExclusiveRun(es[..m])
  {
    if m < |es| {
      ExclusivePrefix(es[..|es| - 1], m);
      assert es[..|es| - 1][..m] == es[..m];
    } else {
      assert es[..m] == es;
    }
  }

  ghost predicate SoleInv(p: Platform) {
    && (forall v, w | v in p.jobs && w in p.jobs && v != w :: p.jobs[v].postback != p.jobs[w].postback)
    && (forall k | 0 <= k < |p.books.conversions| :: !WorkedOn(p.jobs, p.books.conversions[k].postback))
  }

  /** Workers stay on what they hold, or leave it. */
  predicate NobodyNew(jobs: map<nat, Job>, jobs': map<nat, Job>) {
    forall w | w in jobs' :: w in jobs && jobs'[w].postback == jobs[w].postback
  }

  lemma OnlyStartingAddsWork(p: Platform, e: Event)
    requires Enabled(p, e) && !e.StartJob?
    ensures NobodyNew(p.jobs, Apply(p, e).jobs)
  {
    if !Processes(e) {
      OutsideProcessing(p, e);
    }
  }

  lemma CommitKeepsSole(p: Platform, w: nat, hold: nat)
    requires SoleInv(p) && Enabled(p, PersistJob(w, hold))
    ensures SoleInv(ApplyPersist(p, w, hold))
  {
  }

  /** Only a commit adds a conversion, and none ever changes its postback. */
  lemma OnlyCommitsConvert(p: Platform, e: Event)
    requires Enabled(p, e) && !e.PersistJob?
    ensures var cs, cs' := p.books.conversions, Apply(p, e).books.conversions;
            |cs'| == |cs| && forall k | 0 <= k < |cs| :: cs'[k].postback == cs[k].postback
  {
    if !Processes(e) {
      OutsideProcessing(p, e);
      if e.ReviewHold? && ResolveHold(p.books.ledger, p.books.conversions, e.conversion, e.decision, p.clock).Ok? {
        ReviewKeepsPostbacks(p.books.ledger, p.books.conversions, e.conversion, e.decision, p.clock);
      }
    }
  }

  lemma SoleStep(p: Platform, e: Event)
    requires SoleInv(p) && Recorded(p.books.archive, p.books.conversions) && Enabled(p, e)
    requires e.StartJob? ==> !WorkedOn(p.jobs, e.postback) && !PostbackTaken(p.books.conversions, e.postback)
    ensures SoleInv(Apply(p, e))
  {
    if e.PersistJob? {
      CommitKeepsSole(p, e.worker, e.holdDays);
    } else {
      OnlyCommitsConvert(p, e);
      if !e.StartJob? {
        OnlyStartingAddsWork(p, e);
      }
    }
  }

  /** A received postback that nobody ever marked late has not been converted. */
  lemma ReceivedIsUnconverted(es: seq<Event>, i: nat)
    requires i < |Reached(es).books.archive| && Reached(es).books.archive[i].state == Received && !MarkedLate(es, i)
    ensures !PostbackTaken(Reached(es).books.conversions, i)
  {
    ProcessedIff(es, i);
  }

  lemma {:induction false} ExclusiveRunsAreSole(es: seq<Event>)
    requires ExclusiveRun(es)
    ensures SoleInv(Reached(es)) && forall i: nat :: !MarkedLate(es, i)
  {
    if es != [] {
      var n := |es| - 1;
      var p, e := Reached(es[..n]), es[n];
      ExclusiveRunsAreSole(es[..n]);
      ArchiveOf(es[..n]);
      forall i: nat ensures !MarkedLate(es, i) {
        MarkedLateStep(es, i);
      }
      if Enabled(p, e) {
        if e.StartJob? {
          ReceivedIsUnconverted(es[..n], e.postback);
        }
        SoleStep(p, e);
      }
    }
  }

  /** With one worker per postback at a time nobody marks late, so PROCESSED says exactly that the conversion exists. */
  lemma ProcessedMeansConverted(es: seq<Event>, i: nat)
    requires ExclusiveRun(es) && i < |Reached(es).books.archive|
    ensures Reached(es).books.archive[i].state == Processed <==> PostbackTaken(Reached(es).books.conversions, i)
  {
    ExclusiveRunsAreSole(es);
    ProcessedIff(es, i);
  }

  // --- A failure is final -----------------------------------------------------

  /** Marked with an outcome, and nobody is on it. */
  ghost predicate LeftAt(p: Platform, i: nat, state: PostbackState, converted: bool) {
    && i < |p.books.archive| && p.books.archive[i].state == state && state != Received
    && !WorkedOn(p.jobs, i) && (PostbackTaken(p.books.conversions, i) <==> converted)
  }

  lemma NextLeaves(p: Platform, e: Event, i: nat, state: PostbackState, converted: bool)
    requires LeftAt(p, i, state, converted)
    ensures LeftAt(Next(p, e), i, state, converted)
  {
    if Enabled(p, e) {
      OthersKeepPostback(p, e, i);
      if !e.StartJob? {
        OnlyStartingAddsWork(p, e);
      }
    }
  }

  /**
   A job is retried, but only a RECEIVED postback is processed: once a failure is marked and no
   worker is left on it, no later event of any kind converts it or changes its state.
   */
  lemma {:induction false} FailuresAreFinal(es: seq<Event>, more: seq<Event>, i: nat, state: PostbackState, converted: bool)
    requires LeftAt(Reached(es), i, state, converted)
    ensures LeftAt(Reached(es + more), i, state, converted)
  {
    if more == [] {
      assert es + more == es;
    } else {
      var n := |more| - 1;
      FailuresAreFinal(es, more[..n], i, state, converted);
      NextLeaves(Reached(es + more[..n]), more[n], i, state, converted);
      OneMore(es, more);
    }
  }
}
