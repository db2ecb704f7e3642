/** The nightly check of every balance against its own history, page by page. */
module Reconciliations {
  import opened Wrappers
  import opened Sets
  import opened Sums
  import opened Ledgers
  import opened LedgerInvariants
  import opened RewardAccountings
  import opened Platforms
  import opened PlatformInvariants

  // --- One user -------------------------------------------------------------

  datatype Buckets = Buckets(pending: int, available: int, locked: int)

  datatype Report = Report(user: UserId, balanced: bool, recorded: Buckets, expected: Buckets, drift: Buckets, transactions: nat)

  function CountOf(rows: seq<Row>, u: UserId): nat {
    |set i | 0 <= i < |rows| && rows[i].user == u|
  }

  /** What the balance row records against what the history adds up to; a missing row records nothing. */
  function ReportOf(balances: map<UserId, Balance>, rows: seq<Row>, u: UserId): Report {
    var recorded :=
      if u in balances then Buckets(balances[u].pending, balances[u].available, balances[u].locked) else Buckets(0, 0, 0);
    var expected := Buckets(Total(rows, u, PendingOf), Total(rows, u, AvailableOf), Total(rows, u, LockedOf));
    var drift := Buckets(recorded.pending - expected.pending, recorded.available - expected.available,
                         recorded.locked - expected.locked);
    Report(u, drift == Buckets(0, 0, 0), recorded, expected, drift, CountOf(rows, u))
  }

  /** Read as of one instant, every balance is explained by its own history, after any history of the platform. */
  lemma AlwaysBalanced(es: seq<Event>, u: UserId)
    ensures var l := Reached(es).books.ledger; ReportOf(l.balances, l.rows, u).balanced
  {
    AccountOf(es, u);
    LedgerOf(es);
    NoAccountNoHistory(Reached(es).books.ledger, u);
  }

  lemma NoAccountNoHistory(l: Ledger, u: UserId)
    requires Shaped(l)
    ensures u !in l.balances ==>
              Total(l.rows, u, PendingOf) == Total(l.rows, u, AvailableOf) == Total(l.rows, u, LockedOf) == 0
  {
    if u !in l.balances {
      NoHistory(l.rows, u, PendingOf);
      NoHistory(l.rows, u, AvailableOf);
      NoHistory(l.rows, u, LockedOf);
    }
  }

  /** The report counts every movement of the user, and no other. */
  lemma EveryMovementIsCounted(rows: seq<Row>, r: Row, u: UserId)
    ensures CountOf([], u) == 0
    ensures CountOf(rows + [r], u) == CountOf(rows, u) + if r.user == u then 1 else 0
  {
    var before, after := set i | 0 <= i < |rows| && rows[i].user == u, set i | 0 <= i < |rows + [r]| && (rows + [r])[i].user == u;
    if r.user == u {
      assert after == before + {|rows|};
    } else {
      assert after == before;
    }
  }

  /** The drift is the distance from the balance the history explains. */
  lemma DriftIsDistance(balances: map<UserId, Balance>, rows: seq<Row>, u: UserId, b: Balance)
    requires u in balances && Explained(rows, u, b)
    ensures ReportOf(balances, rows, u).drift ==
            Buckets(balances[u].pending - b.pending, balances[u].available - b.available, balances[u].locked - b.locked)
  {
  }

  /**
   A balance row of any reachable ledger changed behind its back is reported by exactly how much it
   was changed, and only that user's.
   */
  lemma DriftIsExact(es: seq<Event>, u: UserId, changed: Balance)
    requires u in Reached(es).books.ledger.balances
    ensures var l := Reached(es).books.ledger;
            var balances := l.balances[u := changed];
            var b := l.balances[u];
            && ReportOf(balances, l.rows, u).drift
               == Buckets(changed.pending - b.pending, changed.available - b.available, changed.locked - b.locked)
            && (ReportOf(balances, l.rows, u).balanced <==>
                  changed.pending == b.pending && changed.available == b.available && changed.locked == b.locked)
            && forall v | v in l.balances && v != u :: ReportOf(balances, l.rows, v).balanced
  {
    var l := Reached(es).books.ledger;
    var balances := l.balances[u := changed];
    AccountOf(es, u);
    DriftIsDistance(balances, l.rows, u, l.balances[u]);
    forall v | v in l.balances && v != u ensures ReportOf(balances, l.rows, v).balanced {
      AccountOf(es, v);
      DriftIsDistance(balances, l.rows, v, l.balances[v]);
    }
  }

  /**
   Why one snapshot: a balance read after a movement and a history read before it differ by
   exactly that movement, on a ledger that is perfectly consistent.
   */
  lemma TornReadReportsTheMovement(l: Ledger, r: Row)
    requires r.user in l.balances && Explained(l.rows, r.user, l.balances[r.user])
    ensures var after := Write(l, r, LifetimeOf(r));
            ReportOf(after.balances, l.rows, r.user).drift == Buckets(r.pending, r.available, r.locked)
  {
  }

  // --- One page -------------------------------------------------------------

  const RECONCILIATION_BATCH_SIZE := 200

  predicate IsBeyond(after: Option<UserId>, u: UserId) {
    after.None? || after.value < u
  }

  function Beyond(users: set<UserId>, after: Option<UserId>): set<UserId> {
    set u | u in users && IsBeyond(after, u)
  }

  const BY_ID: nat -> int := id => id

  /** The first `limit` users past the cursor, in order. */
  function Page(users: set<UserId>, after: Option<UserId>, limit: nat): (page: seq<UserId>)
    ensures |page| <= limit
    decreases limit
  {
    var rest := Beyond(users, after);
    if limit == 0 || rest == {} then []
    else
      var m := Least(BY_ID, rest);
      [m] + Page(users, Some(m), limit - 1)
  }

  /** Strictly ascending, and everything past the cursor. */
  ghost predicate Ascends(ids: seq<UserId>, after: Option<UserId>) {
    && (forall i, j | 0 <= i < j < |ids| :: ids[i] < ids[j])
    && (forall i | 0 <= i < |ids| :: IsBeyond(after, ids[i]))
  }

  /** Whoever a page leaves out comes after everyone on it. */
  ghost predicate LeavesOut(users: set<UserId>, after: Option<UserId>, page: seq<UserId>, limit: nat, u: UserId) {
    u in users && IsBeyond(after, u) && u !in page ==> |page| == limit && (limit > 0 ==> page[limit - 1] < u)
  }

  /** A page is a run of the users past the cursor with nobody skipped; a short page is all of them. */
  lemma {:induction false} PageIsARun(users: set<UserId>, after: Option<UserId>, limit: nat)
    ensures var page := Page(users, after, limit);
            && Ascends(page, after)
            && (forall u | u in page :: u in users)
            && (forall u: UserId :: LeavesOut(users, after, page, limit, u))
    decreases limit
  {
    var rest := Beyond(users, after);
    if limit > 0 && rest != {} {
      var m := Least(BY_ID, rest);
      PageIsARun(users, Some(m), limit - 1);
      forall u: UserId ensures LeavesOut(users, after, Page(users, after, limit), limit, u) {
        FirstThenRest(users, after, limit, m, Page(users, Some(m), limit - 1), u);
      }
    } else {
      assert forall u | u in users && IsBeyond(after, u) :: u in rest;
    }
  }

  lemma FirstThenRest(users: set<UserId>, after: Option<UserId>, limit: nat, m: UserId, tail: seq<UserId>, u: UserId)
    requires limit > 0 && IsLeast(BY_ID, Beyond(users, after), m) && LeavesOut(users, Some(m), tail, limit - 1, u)
    ensures LeavesOut(users, after, [m] + tail, limit, u)
  {
    if u in users && IsBeyond(after, u) && u !in [m] + tail {
      assert u in Beyond(users, after);
      assert u != ([m] + tail)[0];
    }
  }

  // --- The sweep ------------------------------------------------------------

  function LastOf(page: seq<UserId>): Option<UserId> {
    if page == [] then None else Some(page[|page| - 1])
  }

  /** Only a full page continues, and only if the cursor moved. */
  predicate IsComplete(page: seq<UserId>, after: Option<UserId>, limit: nat) {
    |page| < limit || LastOf(page) == None || LastOf(page) == after
  }

  datatype Summary = Summary(checked: nat, drifted: nat, failed: nat, after: Option<UserId>, complete: bool)

  function CountWhere(page: seq<UserId>, f: UserId -> bool): nat {
    if page == [] then 0 else CountWhere(page[..|page| - 1], f) + (if f(page[|page| - 1]) then 1 else 0)
  }

  class ReconciliationProcessor {
    const rewards: RewardAccounting
    var queue: seq<Option<UserId>>

    constructor (rewards: RewardAccounting)
      ensures this.rewards == rewards && queue == []
    {
      this.rewards := rewards;
      queue := [];
    }

    /** Checks one page and, if it filled, queues the next; a user whose read fails is skipped. */
    method SweepPage(after: Option<UserId>, unreadable: set<UserId>, limit: nat) returns (summary: Summary)
      modifies this`queue
      ensures var page := Page(rewards.balances.Keys, after, limit);
              && summary.checked == CountWhere(page, u => u !in unreadable)
              && summary.failed == CountWhere(page, u => u in unreadable)
              && summary.drifted == CountDrifted(page, unreadable, rewards.State())
              && summary.checked + summary.failed == |page|
              && summary.after == after
              && summary.complete == IsComplete(page, after, limit)
              && queue == old(queue) + if summary.complete then [] else [LastOf(page)]
    {
      var page := Page(rewards.balances.Keys, after, limit);
      var checked, drifted, failed := 0, 0, 0;
      for i := 0 to |page|
        invariant checked == CountWhere(page[..i], u => u !in unreadable)
        invariant failed == CountWhere(page[..i], u => u in unreadable)
        invariant drifted == CountDrifted(page[..i], unreadable, rewards.State())
        invariant checked + failed == i
      {
        assert page[..i + 1][..i] == page[..i];
        if page[i] !in unreadable {
          var report := ReportOf(rewards.balances, rewards.rows, page[i]);
          checked := checked + 1;
          if !report.balanced {
            drifted := drifted + 1;
          }
        } else {
          failed := failed + 1;
        }
      }
      assert page[..|page|] == page;
      var last := LastOf(page);
      var complete := |page| < limit || last == None || last == after;
      if !complete {
        queue := queue + [last];
      }
      summary := Summary(checked, drifted, failed, after, complete);
    }

    /** The nightly job: a page of the configured size from the cursor the job carries. */
    method Process(after: Option<UserId>, unreadable: set<UserId>) returns (summary: Summary)
      modifies this`queue
      ensures var page := Page(rewards.balances.Keys, after, RECONCILIATION_BATCH_SIZE);
              && (summary.complete <==> |page| < RECONCILIATION_BATCH_SIZE)
              && queue == old(queue) + if summary.complete then [] else [LastOf(page)]
    {
      PageMovesCursor(rewards.balances.Keys, after, RECONCILIATION_BATCH_SIZE);
      summary := SweepPage(after, unreadable, RECONCILIATION_BATCH_SIZE);
    }
  }

  /** The users of a page whose readable report shows drift. */
  function CountDrifted(page: seq<UserId>, unreadable: set<UserId>, l: Ledger): nat {
    if page == [] then 0
    else
      var n := |page| - 1;
      CountDrifted(page[..n], unreadable, l)
      + (if page[n] !in unreadable && !ReportOf(l.balances, l.rows, page[n]).balanced then 1 else 0)
  }

  /** A sweep of any reachable ledger reports no drift. */
  lemma {:induction false} CleanPages(es: seq<Event>, page: seq<UserId>, unreadable: set<UserId>)
    ensures CountDrifted(page, unreadable, Reached(es).books.ledger) == 0
  {
    if page != [] {
      var n := |page| - 1;
      CleanPages(es, page[..n], unreadable);
      AlwaysBalanced(es, page[n]);
    }
  }

  /** The users of a page for whom f holds. */
  function Chosen(page: seq<UserId>, f: UserId -> bool): set<UserId> {
    set u | u in page && f(u)
  }

  lemma {:induction false} CountsChosen(page: seq<UserId>, f: UserId -> bool)
    requires forall i, j | 0 <= i < j < |page| :: page[i] != page[j]
    ensures CountWhere(page, f) == |Chosen(page, f)|
  {
    if page == [] {
      assert Chosen(page, f) == {};
    } else {
      var n := |page| - 1;
      CountsChosen(page[..n], f);
      assert page == page[..n] + [page[n]];
      if f(page[n]) {
        assert Chosen(page, f) == Chosen(page[..n], f) + {page[n]};
      } else {
        assert Chosen(page, f) == Chosen(page[..n], f);
      }
    }
  }

  /** The balance row says something else than the user's history adds up to. */
  predicate Drifted(l: Ledger, u: UserId) {
    u in l.balances
    && (l.balances[u].pending != Total(l.rows, u, PendingOf) || l.balances[u].available != Total(l.rows, u, AvailableOf)
        || l.balances[u].locked != Total(l.rows, u, LockedOf))
  }

  lemma {:induction false} DriftedAreCounted(page: seq<UserId>, unreadable: set<UserId>, l: Ledger)
    requires forall i | 0 <= i < |page| :: page[i] in l.balances
    ensures CountDrifted(page, unreadable, l) == CountWhere(page, (u: UserId) => u !in unreadable && Drifted(l, u))
  {
    if page != [] {
      DriftedAreCounted(page[..|page| - 1], unreadable, l);
    }
  }

  /**
   The counters of one page are numbers of users: those that could be read, those that could not, and of
   the first those whose balance is not what their history adds up to.
   */
  lemma PageCounts(l: Ledger, after: Option<UserId>, limit: nat, unreadable: set<UserId>)
    ensures var page := Page(l.balances.Keys, after, limit);
            && CountWhere(page, u => u !in unreadable) == |set u | u in page && u !in unreadable|
            && CountWhere(page, u => u in unreadable) == |set u | u in page && u in unreadable|
            && CountDrifted(page, unreadable, l) == |set u | u in page && u !in unreadable && Drifted(l, u)|
  {
    var page := Page(l.balances.Keys, after, limit);
    PageIsARun(l.balances.Keys, after, limit);
    DriftedAreCounted(page, unreadable, l);
    CountsChosen(page, u => u !in unreadable);
    CountsChosen(page, u => u in unreadable);
    CountsChosen(page, (u: UserId) => u !in unreadable && Drifted(l, u));
    assert Chosen(page, u => u !in unreadable) == set u | u in page && u !in unreadable;
    assert Chosen(page, u => u in unreadable) == set u | u in page && u in unreadable;
    assert Chosen(page, (u: UserId) => u !in unreadable && Drifted(l, u)) == set u | u in page && u !in unreadable && Drifted(l, u);
  }

  // --- The chain of continuation jobs ----------------------------------------

  /** Who is visited when the k-th job of the chain finds the users `snapshots[k]`. */
  function Visited(snapshots: seq<set<UserId>>, after: Option<UserId>, limit: nat): seq<UserId> {
    if snapshots == [] then []
    else
      var page := Page(snapshots[0], after, limit);
      if IsComplete(page, after, limit) then page else page + Visited(snapshots[1..], LastOf(page), limit)
  }

  predicate Finishes(snapshots: seq<set<UserId>>, after: Option<UserId>, limit: nat) {
    snapshots != []
    && (var page := Page(snapshots[0], after, limit);
        IsComplete(page, after, limit) || Finishes(snapshots[1..], LastOf(page), limit))
  }

  lemma PageMovesCursor(users: set<UserId>, after: Option<UserId>, limit: nat)
    requires limit >= 1
    ensures var page := Page(users, after, limit);
            && (IsComplete(page, after, limit) <==> |page| < limit)
            && (page != [] ==> IsBeyond(after, LastOf(page).value))
  {
    PageIsARun(users, after, limit);
  }

  /** Nobody is visited twice, whatever happens to the user table meanwhile. */
  lemma {:induction false} NobodyTwice(snapshots: seq<set<UserId>>, after: Option<UserId>, limit: nat)
    requires limit >= 1
    ensures Ascends(Visited(snapshots, after, limit), after)
    decreases |snapshots|
  {
    if snapshots != [] {
      var page := Page(snapshots[0], after, limit);
      PageIsARun(snapshots[0], after, limit);
      PageMovesCursor(snapshots[0], after, limit);
      if !IsComplete(page, after, limit) {
        NobodyTwice(snapshots[1..], LastOf(page), limit);
        AscendsJoin(page, Visited(snapshots[1..], LastOf(page), limit), after);
      }
    }
  }

  lemma AscendsJoin(page: seq<UserId>, rest: seq<UserId>, after: Option<UserId>)
    requires page != [] && Ascends(page, after) && Ascends(rest, LastOf(page))
    ensures Ascends(page + rest, after)
  {
  }

  /**
   A chain that finishes has visited, exactly once, every user who was there throughout; users
   registered in between change nothing for them.
   */
  lemma {:induction false} EverybodyOnce(snapshots: seq<set<UserId>>, after: Option<UserId>, limit: nat, u: UserId)
    requires limit >= 1 && Finishes(snapshots, after, limit)
    requires IsBeyond(after, u) && forall i | 0 <= i < |snapshots| :: u in snapshots[i]
    ensures multiset(Visited(snapshots, after, limit))[u] == 1
    decreases |snapshots|
  {
    var page := Page(snapshots[0], after, limit);
    PageIsARun(snapshots[0], after, limit);
    PageMovesCursor(snapshots[0], after, limit);
    assert LeavesOut(snapshots[0], after, page, limit, u);
    if !IsComplete(page, after, limit) && u !in page {
      EverybodyOnce(snapshots[1..], LastOf(page), limit, u);
    }
    NobodyTwice(snapshots, after, limit);
    AscendingCountsOnce(Visited(snapshots, after, limit), after, u);
  }

  lemma {:induction false} AscendingCountsOnce(ids: seq<UserId>, after: Option<UserId>, u: UserId)
    requires Ascends(ids, after)
    ensures multiset(ids)[u] == if u in ids then 1 else 0
  {
    if ids != [] {
      var n := |ids| - 1;
      AscendingCountsOnce(ids[..n], after, u);
      assert ids == ids[..n] + [ids[n]];
    }
  }

  /** The chain stops: each continuation leaves at least a page fewer users past the cursor. */
  lemma {:induction false} ChainStops(snapshots: seq<set<UserId>>, everyone: set<UserId>, after: Option<UserId>, limit: nat)
    requires limit >= 1 && forall i | 0 <= i < |snapshots| :: snapshots[i] <= everyone
    requires |Beyond(everyone, after)| < limit * |snapshots|
    ensures Finishes(snapshots, after, limit)
    decreases |snapshots|
  {
    var page := Page(snapshots[0], after, limit);
    PageIsARun(snapshots[0], after, limit);
    PageMovesCursor(snapshots[0], after, limit);
    if !IsComplete(page, after, limit) {
      FewerBeyond(everyone, after, page);
      OnePageFewer(|Beyond(everyone, LastOf(page))|, |Beyond(everyone, after)|, limit, |snapshots|);
      ChainStops(snapshots[1..], everyone, LastOf(page), limit);
    }
  }

  function Elements(page: seq<UserId>): (s: set<UserId>)
    ensures forall u :: u in s <==> u in page
  {
    if page == [] then {}
    else
      assert page == page[..|page| - 1] + [page[|page| - 1]];
      Elements(page[..|page| - 1]) + {page[|page| - 1]}
  }

  lemma LastIsLast(page: seq<UserId>, after: Option<UserId>)
    requires page != [] && Ascends(page, after)
    ensures IsBeyond(after, page[|page| - 1])
    ensures forall u | u in page :: IsBeyond(after, u) && u <= page[|page| - 1]
  {
  }

  lemma FewerBeyond(everyone: set<UserId>, after: Option<UserId>, page: seq<UserId>)
    requires page != [] && Ascends(page, after) && forall u | u in page :: u in everyone
    ensures |Beyond(everyone, LastOf(page))| + |page| <= |Beyond(everyone, after)|
  {
    var seen, rest := Elements(page), Beyond(everyone, LastOf(page));
    DistinctCount(page, after);
    LastIsLast(page, after);
    assert forall u | u in rest :: IsBeyond(after, u);
    PartsFit(rest, seen, Beyond(everyone, after));
  }

  lemma {:induction false} DistinctCount(page: seq<UserId>, after: Option<UserId>)
    requires Ascends(page, after)
    ensures |Elements(page)| == |page|
  {
    if page != [] {
      var n := |page| - 1;
      DistinctCount(page[..n], after);
      assert forall i | 0 <= i < n :: page[..n][i] < page[n];
      assert Elements(page) == Elements(page[..n]) + {page[n]};
    }
  }

  lemma OnePageFewer(left: nat, before: nat, limit: nat, jobs: nat)
    requires jobs >= 1 && left + limit <= before < limit * jobs
    ensures left < limit * (jobs - 1)
  {
  }

}
