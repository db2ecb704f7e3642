/**
 Catalog runs one statement at a time: several runs of one provider and an admin's switches
 interleave between a run's start, its fetch, each of its upserts, its count, its decision and its prune.
 */
module CatalogRuns {
  import opened Wrappers
  import opened Sets
  import opened Offers
  import opened CatalogSyncs

  datatype Response = Response(fetched: seq<Mapped>, seenAt: int)

  /** A full run that has written everything: how many offers were live, and whether it may prune. */
  datatype Guard = Unasked | Counted(live: nat) | Cleared(live: nat, threshold: nat)

  /**
   `written` is how far the loop is; `alone` that no other run of the provider was under way since the
   start; `restored` how many of the provider's offers an admin switched on since the count.
   */
  datatype Run = Run(
    provider: nat,
    mode: Mode,
    startedAt: int,
    response: Option<Response>,
    written: nat,
    guard: Guard,
    alone: bool,
    restored: nat)

  /** Each reading of the clock is later than the last. */
  datatype Catalog = Catalog(offers: Table, clock: int, runs: map<nat, Run>)

  const EMPTY_CATALOG := Catalog(map[], 0, map[])

  datatype Event =
    | Start(run: nat, provider: nat, mode: Mode)
    | Fetch(run: nat, fetched: seq<Mapped>)
    | WriteNext(run: nat)
    | Count(run: nat)
    | Decide(run: nat, threshold: nat)
    | Prune(run: nat)
    | Finish(run: nat)
    | GiveUp(run: nat)
    | SwitchOffer(key: OfferKey, active: bool)

  predicate AllWritten(x: Run) {
    x.response.Some? && x.written == |x.response.value.fetched|
  }

  function Accepted(x: Run): set<nat>
    requires x.response.Some?
  {
    AcceptedIds(x.response.value.fetched)
  }

  predicate Enabled(s: Catalog, e: Event) {
    match e
    case Start(r, _, _) => r !in s.runs
    case Fetch(r, _) => r in s.runs && s.runs[r].response == None
    case WriteNext(r) => r in s.runs && s.runs[r].response.Some? && s.runs[r].written < |s.runs[r].response.value.fetched|
    case Count(r) => r in s.runs && AllWritten(s.runs[r]) && s.runs[r].mode == Full && s.runs[r].guard.Unasked?
    case Decide(r, _) => r in s.runs && AllWritten(s.runs[r]) && s.runs[r].guard.Counted?
    case Prune(r) => r in s.runs && AllWritten(s.runs[r]) && s.runs[r].guard.Cleared?
    case Finish(r) => r in s.runs && AllWritten(s.runs[r]) && s.runs[r].mode == Incremental
    case GiveUp(r) => r in s.runs
    case SwitchOffer(_, _) => true
  }

  /** A second run of the provider ends everybody's being alone. */
  function ApplyStart(s: Catalog, r: nat, provider: nat, mode: Mode): Catalog {
    var crowded := exists q | q in s.runs :: s.runs[q].provider == provider;
    var others := map q | q in s.runs :: if s.runs[q].provider == provider then s.runs[q].(alone := false) else s.runs[q];
    s.(clock := s.clock + 1, runs := others[r := Run(provider, mode, s.clock + 1, None, 0, Unasked, !crowded, 0)])
  }

  /** The offer the next statement of run r upserts, if it upserts one. */
  function NextUpsert(s: Catalog, r: nat): Option<OfferKey>
    requires Enabled(s, WriteNext(r))
  {
    var x := s.runs[r];
    var fetched := x.response.value.fetched;
    if Writes(fetched, x.written) then Some(OfferKey(x.provider, fetched[x.written].externalId)) else None
  }

  function ApplyWrite(s: Catalog, r: nat): Catalog
    requires Enabled(s, WriteNext(r))
  {
    var x := s.runs[r];
    var upsert := NextUpsert(s, r);
    s.(runs := s.runs[r := x.(written := x.written + 1)],
       offers := if upsert.Some?
                 then Upserted(s.offers, upsert.value, x.response.value.fetched[x.written].content, x.response.value.seenAt)
                 else s.offers)
  }

  /** Refused below the threshold share of what was live at the count, which ends the run. */
  function ApplyDecide(s: Catalog, r: nat, threshold: nat): Catalog
    requires Enabled(s, Decide(r, threshold))
  {
    var x := s.runs[r];
    if x.guard.live > 0 && |Accepted(x)| * 100 < x.guard.live * threshold then s.(runs := s.runs - {r})
    else s.(runs := s.runs[r := x.(guard := Cleared(x.guard.live, threshold))])
  }

  function ApplySwitch(s: Catalog, key: OfferKey, active: bool): Catalog {
    match Switched(s.offers, key, active)
    case Err(_) => s
    case Ok(offers) =>
      s.(offers := offers,
         runs := map q | q in s.runs ::
           if active && s.runs[q].provider == key.provider && !s.runs[q].guard.Unasked?
           then s.runs[q].(restored := s.runs[q].restored + 1) else s.runs[q])
  }

  function Apply(s: Catalog, e: Event): Catalog
    requires Enabled(s, e)
  {
    match e
    case Start(r, provider, mode) => ApplyStart(s, r, provider, mode)
    case Fetch(r, fetched) =>
      s.(clock := s.clock + 1,
         runs := s.runs[r := s.runs[r].(response := Some(Response(fetched, s.clock + 1)))])
    case WriteNext(r) => ApplyWrite(s, r)
    case Count(r) => s.(runs := s.runs[r := s.runs[r].(guard := Counted(|ActiveKeys(s.offers, s.runs[r].provider)|))])
    case Decide(r, threshold) => ApplyDecide(s, r, threshold)
    case Prune(r) => s.(runs := s.runs - {r}, offers := Deactivated(s.offers, s.runs[r].provider, s.runs[r].startedAt))
    case Finish(r) => s.(runs := s.runs - {r})
    case GiveUp(r) => s.(runs := s.runs - {r})
    case SwitchOffer(key, active) => ApplySwitch(s, key, active)
  }

  function Next(s: Catalog, e: Event): Catalog {
    if Enabled(s, e) then Apply(s, e) else s
  }

  function Reached(es: seq<Event>): Catalog {
    if es == [] then EMPTY_CATALOG else Next(Reached(es[..|es| - 1]), es[|es| - 1])
  }

  // --- An admin's decision survives ---------------------------------------------

  /**
   An admin's switch lands between any two statements: pulling takes a live offer off the wall at once,
   restoring puts it back, and each run past its count knows of one more offer that was switched on.
   */
  lemma SwitchesLand(s: Catalog, key: OfferKey, active: bool, q: nat)
    requires key in s.offers && s.offers[key].active != active
    ensures var s' := Next(s, SwitchOffer(key, active));
            && key in s'.offers && s'.offers[key].active == active && (AdminPulled(s'.offers, key) <==> !active)
            && s'.runs.Keys == s.runs.Keys
            && (q in s.runs ==>
                  s'.runs[q] == if active && s.runs[q].provider == key.provider && !s.runs[q].guard.Unasked?
                                then s.runs[q].(restored := s.runs[q].restored + 1) else s.runs[q])
  {
    SwitchAnswers(s.offers, key, active);
  }

  /** A run can be given up at any time; an incremental one is done when everything is written. Neither touches an offer. */
  lemma RunsEnd(s: Catalog, r: nat)
    requires r in s.runs
    ensures var s' := Next(s, GiveUp(r)); r !in s'.runs && s'.offers == s.offers && s'.runs.Keys == s.runs.Keys - {r}
    ensures var s' := Next(s, Finish(r));
            && s'.offers == s.offers
            && (r !in s'.runs <==>
                  s.runs[r].mode == Incremental && s.runs[r].response.Some? && s.runs[r].written == |s.runs[r].response.value.fetched|)
  {
  }

  /** Only an admin ends an admin's pull. */
  lemma PulledStep(s: Catalog, e: Event, key: OfferKey)
    requires AdminPulled(s.offers, key) && e != SwitchOffer(key, true)
    ensures AdminPulled(Next(s, e).offers, key)
  {
  }

  /**
   Wherever the pull lands between the statements of however many runs, the offer stays off until an
   admin restores it.
   */
  lemma {:induction false} PulledStaysPulled(es: seq<Event>, more: seq<Event>, key: OfferKey)
    requires AdminPulled(Reached(es).offers, key)
    requires forall i | 0 <= i < |more| :: more[i] != SwitchOffer(key, true)
    ensures AdminPulled(Reached(es + more).offers, key)
  {
    if more == [] {
      assert es + more == es;
    } else {
      var n := |more| - 1;
      PulledStaysPulled(es, more[..n], key);
      assert (es + more)[..|es| + n] == es + more[..n];
      PulledStep(Reached(es + more[..n]), more[n], key);
    }
  }

  // --- What every interleaving keeps ----------------------------------------------

  function IdsWritten(x: Run): set<nat>
    requires x.response.Some? ==> x.written <= |x.response.value.fetched|
  {
    if x.response.None? then {} else AcceptedIds(x.response.value.fetched[..x.written])
  }

  predicate RunOk(s: Catalog, x: Run) {
    && x.startedAt <= s.clock
    && (x.response.None? ==> x.written == 0)
    && (x.response.Some? ==> x.startedAt < x.response.value.seenAt <= s.clock && x.written <= |x.response.value.fetched|)
    && (!x.guard.Unasked? ==> AllWritten(x))
    && (x.guard.Cleared? ==> |Accepted(x)| * 100 >= x.guard.live * x.guard.threshold)
  }

  /** What a run that has been alone has done so far, and nobody else has. */
  predicate AloneSoFar(s: Catalog, x: Run, key: OfferKey)
    requires RunOk(s, x)
  {
    key.provider == x.provider ==>
      && (key.externalId in IdsWritten(x) ==>
            key in s.offers && s.offers[key].lastSeen == x.response.value.seenAt
            && (s.offers[key].active || AdminPulled(s.offers, key)))
      && (key.externalId !in IdsWritten(x) && key in s.offers ==> s.offers[key].lastSeen < x.startedAt)
  }

  /** What is live now was live at the count or switched on since. */
  predicate CountHolds(s: Catalog, x: Run) {
    !x.guard.Unasked? ==> |ActiveKeys(s.offers, x.provider)| <= x.guard.live + x.restored
  }

  predicate Separate(s: Catalog) {
    forall q, r | q in s.runs && r in s.runs && q != r && s.runs[q].alone :: s.runs[q].provider != s.runs[r].provider
  }

  ghost predicate Inv(s: Catalog) {
    && (forall r | r in s.runs :: RunOk(s, s.runs[r]))
    && (forall key | key in s.offers :: s.offers[key].lastSeen <= s.clock)
    && (forall r, key | r in s.runs && s.runs[r].alone :: AloneSoFar(s, s.runs[r], key))
    && (forall r | r in s.runs && s.runs[r].alone :: CountHolds(s, s.runs[r]))
    && Separate(s)
  }

  lemma AcceptedGrows(fetched: seq<Mapped>, i: nat)
    requires i < |fetched|
    ensures AcceptedIds(fetched[..i + 1])
            == AcceptedIds(fetched[..i]) + if fetched[i].Accepted? then {fetched[i].externalId} else {}
  {
    assert fetched[..i + 1][..i] == fetched[..i];
  }

  lemma {:induction false} AcceptedPrefix(fetched: seq<Mapped>, i: nat)
    requires i <= |fetched|
    ensures AcceptedIds(fetched[..i]) <= AcceptedIds(fetched)
    decreases |fetched| - i
  {
    if i < |fetched| {
      AcceptedPrefix(fetched, i + 1);
      AcceptedGrows(fetched, i);
    } else {
      assert fetched[..i] == fetched;
    }
  }

  lemma StartKeeps(s: Catalog, r: nat, provider: nat, mode: Mode)
    requires Inv(s) && r !in s.runs
    ensures Inv(ApplyStart(s, r, provider, mode))
  {
    var s' := ApplyStart(s, r, provider, mode);
    forall q | q in s'.runs ensures RunOk(s', s'.runs[q]) {
      assert q != r ==> RunOk(s, s.runs[q]);
    }
    forall q, key | q in s'.runs && s'.runs[q].alone ensures AloneSoFar(s', s'.runs[q], key) {
      assert q != r ==> AloneSoFar(s, s.runs[q], key);
    }
    forall q | q in s'.runs && s'.runs[q].alone ensures CountHolds(s', s'.runs[q]) {
      assert q != r ==> CountHolds(s, s.runs[q]);
    }
  }

  lemma FetchKeeps(s: Catalog, r: nat, fetched: seq<Mapped>)
    requires Inv(s) && Enabled(s, Fetch(r, fetched))
    ensures Inv(Apply(s, Fetch(r, fetched)))
  {
    var s' := Apply(s, Fetch(r, fetched));
    assert fetched[..0] == [];
    forall q | q in s'.runs ensures RunOk(s', s'.runs[q]) {
      assert RunOk(s, s.runs[q]);
    }
    forall q, key | q in s'.runs && s'.runs[q].alone ensures AloneSoFar(s', s'.runs[q], key) {
      assert AloneSoFar(s, s.runs[q], key);
    }
    forall q | q in s'.runs && s'.runs[q].alone ensures CountHolds(s', s'.runs[q]) {
      assert CountHolds(s, s.runs[q]);
    }
  }

  /** One upsert of run r, seen by an alone run q. */
  lemma WriteAlone(s: Catalog, r: nat, q: nat, key: OfferKey)
    requires Inv(s) && Enabled(s, WriteNext(r)) && q in s.runs && s.runs[q].alone
    requires RunOk(ApplyWrite(s, r), ApplyWrite(s, r).runs[q])
    ensures AloneSoFar(ApplyWrite(s, r), ApplyWrite(s, r).runs[q], key)
  {
    assert AloneSoFar(s, s.runs[q], key);
    AcceptedGrows(s.runs[r].response.value.fetched, s.runs[r].written);
  }

  /** An upsert of one provider's run moves no other provider's count. */
  lemma WriteCounts(s: Catalog, r: nat, provider: nat)
    requires Enabled(s, WriteNext(r)) && s.runs[r].provider != provider
    ensures ActiveKeys(ApplyWrite(s, r).offers, provider) == ActiveKeys(s.offers, provider)
  {
  }

  lemma WriteKeeps(s: Catalog, r: nat)
    requires Inv(s) && Enabled(s, WriteNext(r))
    ensures Inv(ApplyWrite(s, r))
  {
    var s' := ApplyWrite(s, r);
    forall q | q in s'.runs ensures RunOk(s', s'.runs[q]) {
      assert RunOk(s, s.runs[q]);
    }
    forall q, key | q in s'.runs && s'.runs[q].alone ensures AloneSoFar(s', s'.runs[q], key) {
      WriteAlone(s, r, q, key);
    }
    forall q | q in s'.runs && s'.runs[q].alone ensures CountHolds(s', s'.runs[q]) {
      assert CountHolds(s, s.runs[q]) && RunOk(s, s.runs[q]);
      if q != r {
        WriteCounts(s, r, s.runs[q].provider);
      }
    }
    assert RunOk(s, s.runs[r]);
  }

  /** A switch adds one live offer at most, and only by switching on. */
  lemma SwitchCounts(offers: Table, key: OfferKey, active: bool, provider: nat)
    requires Switched(offers, key, active).Ok?
    ensures |ActiveKeys(Switched(offers, key, active).value, provider)|
            <= |ActiveKeys(offers, provider)| + if active && key.provider == provider then 1 else 0
  {
    var before, after := ActiveKeys(offers, provider), ActiveKeys(Switched(offers, key, active).value, provider);
    if active && key.provider == provider {
      SubsetSize(after, before + {key});
    } else {
      SubsetSize(after, before);
    }
  }

  lemma SwitchKeeps(s: Catalog, key: OfferKey, active: bool)
    requires Inv(s)
    ensures Inv(ApplySwitch(s, key, active))
  {
    var s' := ApplySwitch(s, key, active);
    forall q | q in s'.runs ensures RunOk(s', s'.runs[q]) {
      assert RunOk(s, s.runs[q]);
    }
    forall q, other | q in s'.runs && s'.runs[q].alone ensures AloneSoFar(s', s'.runs[q], other) {
      assert AloneSoFar(s, s.runs[q], other);
    }
    forall q | q in s'.runs && s'.runs[q].alone ensures CountHolds(s', s'.runs[q]) {
      assert CountHolds(s, s.runs[q]);
      if Switched(s.offers, key, active).Ok? {
        SwitchCounts(s.offers, key, active, s.runs[q].provider);
      }
    }
  }

  lemma PruneKeeps(s: Catalog, r: nat)
    requires Inv(s) && Enabled(s, Prune(r))
    ensures Inv(Apply(s, Prune(r)))
  {
    var s' := Apply(s, Prune(r));
    forall q | q in s'.runs ensures RunOk(s', s'.runs[q]) {
      assert RunOk(s, s.runs[q]);
    }
    forall q, key | q in s'.runs && s'.runs[q].alone ensures AloneSoFar(s', s'.runs[q], key) {
      assert AloneSoFar(s, s.runs[q], key);
    }
    forall q | q in s'.runs && s'.runs[q].alone ensures CountHolds(s', s'.runs[q]) {
      assert CountHolds(s, s.runs[q]);
      SubsetSize(ActiveKeys(s'.offers, s.runs[q].provider), ActiveKeys(s.offers, s.runs[q].provider));
    }
  }

  /** Counts, decisions and ends leave the offers alone. */
  lemma RestKeeps(s: Catalog, e: Event)
    requires Inv(s) && Enabled(s, e) && (e.Count? || e.Decide? || e.Finish? || e.GiveUp?)
    ensures Inv(Apply(s, e))
  {
    var s' := Apply(s, e);
    forall q | q in s'.runs ensures RunOk(s', s'.runs[q]) {
      assert RunOk(s, s.runs[q]);
    }
    forall q, key | q in s'.runs && s'.runs[q].alone ensures AloneSoFar(s', s'.runs[q], key) {
      assert AloneSoFar(s, s.runs[q], key);
    }
    forall q | q in s'.runs && s'.runs[q].alone ensures CountHolds(s', s'.runs[q]) {
      assert CountHolds(s, s.runs[q]);
    }
  }

  lemma EventKeeps(s: Catalog, e: Event)
    requires Inv(s) && Enabled(s, e)
    ensures Inv(Apply(s, e))
  {
    match e
    case Start(r, provider, mode) => StartKeeps(s, r, provider, mode);
    case Fetch(r, fetched) => FetchKeeps(s, r, fetched);
    case WriteNext(r) => WriteKeeps(s, r);
    case Prune(r) => PruneKeeps(s, r);
    case SwitchOffer(key, active) => SwitchKeeps(s, key, active);
    case _ => RestKeeps(s, e);
  }

  lemma {:induction false} EveryRun(es: seq<Event>)
    ensures Inv(Reached(es))
  {
    if es != [] {
      var n := |es| - 1;
      EveryRun(es[..n]);
      if Enabled(Reached(es[..n]), es[n]) {
        EventKeeps(Reached(es[..n]), es[n]);
      }
    }
  }

  // --- Who wrote an offer last ---------------------------------------------------------

  ghost predicate UpsertsAt(es: seq<Event>, k: nat, key: OfferKey) {
    && k < |es| && es[k].WriteNext? && Enabled(Reached(es[..k]), es[k])
    && NextUpsert(Reached(es[..k]), es[k].run) == Some(key)
  }

  /** The position of the last upsert of the offer among the first k events. */
  ghost function LastUpsert(es: seq<Event>, k: nat, key: OfferKey): (u: Option<nat>)
    requires k <= |es|
    ensures u.Some? ==> u.value < k && UpsertsAt(es, u.value, key)
  {
    if k == 0 then None else if UpsertsAt(es, k - 1, key) then Some(k - 1) else LastUpsert(es, k - 1, key)
  }

  ghost predicate FetchesAt(es: seq<Event>, f: nat, q: nat) {
    f < |es| && es[f].Fetch? && es[f].run == q && Enabled(Reached(es[..f]), es[f])
  }

  /** The position of run q's last fetch among the first k events. */
  ghost function FetchOf(es: seq<Event>, k: nat, q: nat): (f: Option<nat>)
    requires k <= |es|
    ensures f.Some? ==> f.value < k && FetchesAt(es, f.value, q)
  {
    if k == 0 then None else if FetchesAt(es, k - 1, q) then Some(k - 1) else FetchOf(es, k - 1, q)
  }

  ghost predicate StartsAt(es: seq<Event>, t: nat, r: nat) {
    t < |es| && es[t].Start? && es[t].run == r && Enabled(Reached(es[..t]), es[t])
  }

  /** The position of run r's last start among the first k events. */
  ghost function StartOf(es: seq<Event>, k: nat, r: nat): (t: Option<nat>)
    requires k <= |es|
    ensures t.Some? ==> t.value < k && StartsAt(es, t.value, r)
  {
    if k == 0 then None else if StartsAt(es, k - 1, r) then Some(k - 1) else StartOf(es, k - 1, r)
  }

  lemma OneMore(es: seq<Event>, k: nat)
    requires k < |es|
    ensures Reached(es[..k + 1]) == Next(Reached(es[..k]), es[k])
  {
    assert es[..k + 1][..k] == es[..k];
  }

  lemma OnlyUpsertsMove(s: Catalog, e: Event, key: OfferKey)
    requires Enabled(s, e) && key in Apply(s, e).offers
    requires e.WriteNext? ==> NextUpsert(s, e.run) != Some(key)
    ensures key in s.offers && Apply(s, e).offers[key].lastSeen == s.offers[key].lastSeen
  {
  }

  /** When an offer was last seen is when the run behind its last upsert fetched. */
  lemma {:induction false} LastSeen(es: seq<Event>, k: nat, key: OfferKey)
    requires k <= |es| && key in Reached(es[..k]).offers
    ensures LastUpsert(es, k, key).Some?
    ensures var u := LastUpsert(es, k, key).value;
            Reached(es[..k]).offers[key].lastSeen == Reached(es[..u]).runs[es[u].run].response.value.seenAt
  {
    assert es[..0] == [];
    if k > 0 {
      OneMore(es, k - 1);
      if !UpsertsAt(es, k - 1, key) {
        if Enabled(Reached(es[..k - 1]), es[k - 1]) {
          OnlyUpsertsMove(Reached(es[..k - 1]), es[k - 1], key);
        }
        LastSeen(es, k - 1, key);
      }
    }
  }

  lemma RunStays(s: Catalog, e: Event, q: nat)
    requires Enabled(s, e) && q in Apply(s, e).runs && !(e.Start? && e.run == q)
    ensures q in s.runs
    ensures var x, x' := s.runs[q], Apply(s, e).runs[q];
            && x'.startedAt == x.startedAt && x'.provider == x.provider
            && (!(e.Fetch? && e.run == q) ==> x'.response == x.response)
  {
  }

  /** A run's response is the one its fetch got, dated by it. */
  lemma {:induction false} FetchedThen(es: seq<Event>, k: nat, q: nat)
    requires k <= |es| && q in Reached(es[..k]).runs && Reached(es[..k]).runs[q].response.Some?
    ensures FetchOf(es, k, q).Some?
    ensures var f, x := FetchOf(es, k, q).value, Reached(es[..k]).runs[q];
            && es[f].fetched == x.response.value.fetched && Reached(es[..f]).runs[q].provider == x.provider
            && x.response.value.seenAt == Reached(es[..f]).clock + 1 == Reached(es[..f + 1]).clock
  {
    assert es[..0] == [];
    if k > 0 {
      OneMore(es, k - 1);
      if !FetchesAt(es, k - 1, q) {
        if Enabled(Reached(es[..k - 1]), es[k - 1]) {
          RunStays(Reached(es[..k - 1]), es[k - 1], q);
        }
        FetchedThen(es, k - 1, q);
      }
    }
  }

  lemma {:induction false} StartedThen(es: seq<Event>, k: nat, r: nat)
    requires k <= |es| && r in Reached(es[..k]).runs
    ensures StartOf(es, k, r).Some?
    ensures var t := StartOf(es, k, r).value;
            Reached(es[..k]).runs[r].startedAt == Reached(es[..t]).clock + 1 == Reached(es[..t + 1]).clock
  {
    assert es[..0] == [];
    if k > 0 {
      OneMore(es, k - 1);
      if !StartsAt(es, k - 1, r) {
        if Enabled(Reached(es[..k - 1]), es[k - 1]) {
          RunStays(Reached(es[..k - 1]), es[k - 1], r);
        }
        StartedThen(es, k - 1, r);
      }
    }
  }

  lemma {:induction false} ClockGoesOn(es: seq<Event>, i: nat, k: nat)
    requires i <= k <= |es|
    ensures Reached(es[..i]).clock <= Reached(es[..k]).clock
  {
    if i < k {
      ClockGoesOn(es, i, k - 1);
      OneMore(es, k - 1);
    }
  }

  /** The clock tells which of two events that read it came first. */
  lemma TimesInOrder(es: seq<Event>, f: nat, t: nat)
    requires f < |es| && t < |es| && f != t
    requires Reached(es[..f + 1]).clock == Reached(es[..f]).clock + 1
    requires Reached(es[..t + 1]).clock == Reached(es[..t]).clock + 1
    ensures f < t <==> Reached(es[..f]).clock < Reached(es[..t]).clock
  {
    if f < t {
      ClockGoesOn(es, f + 1, t);
    } else {
      ClockGoesOn(es, t + 1, f);
    }
  }

  // --- What a prune takes down -----------------------------------------------------------

  /** The run behind the offer's last upsert fetched before run r started. */
  ghost predicate WrittenFromBefore(es: seq<Event>, r: nat, key: OfferKey) {
    && LastUpsert(es, |es|, key).Some? && StartOf(es, |es|, r).Some?
    && var u := LastUpsert(es, |es|, key).value;
       var f := FetchOf(es, u, es[u].run);
       f.Some? && f.value < StartOf(es, |es|, r).value
  }

  /** The fetch behind the last upsert of an offer, and its time. */
  lemma SeenAtFetch(es: seq<Event>, key: OfferKey) returns (u: nat, f: nat)
    requires key in Reached(es).offers
    ensures LastUpsert(es, |es|, key) == Some(u) && u < |es| && FetchOf(es, u, es[u].run) == Some(f)
    ensures f < |es| && es[f].Fetch?
    ensures Reached(es).offers[key].lastSeen == Reached(es[..f]).clock + 1 == Reached(es[..f + 1]).clock
  {
    assert es[..|es|] == es;
    LastSeen(es, |es|, key);
    u := LastUpsert(es, |es|, key).value;
    FetchedThen(es, u, es[u].run);
    f := FetchOf(es, u, es[u].run).value;
  }

  lemma StartedAtStart(es: seq<Event>, r: nat) returns (t: nat)
    requires r in Reached(es).runs
    ensures StartOf(es, |es|, r) == Some(t) && t < |es| && es[t].Start?
    ensures Reached(es).runs[r].startedAt == Reached(es[..t]).clock + 1 == Reached(es[..t + 1]).clock
  {
    assert es[..|es|] == es;
    StartedThen(es, |es|, r);
    t := StartOf(es, |es|, r).value;
  }

  lemma {:induction false} WrittenFromBeforeMeans(es: seq<Event>, r: nat, key: OfferKey)
    requires key in Reached(es).offers && r in Reached(es).runs
    ensures WrittenFromBefore(es, r, key) <==> Reached(es).offers[key].lastSeen < Reached(es).runs[r].startedAt
  {
    var u, f := SeenAtFetch(es, key);
    var t := StartedAtStart(es, r);
    TimesInOrder(es, f, t);
  }

  lemma AfterPrune(es: seq<Event>, r: nat)
    requires Enabled(Reached(es), Prune(r))
    ensures var x := Reached(es).runs[r];
            Reached(es + [Prune(r)]).offers == Deactivated(Reached(es).offers, x.provider, x.startedAt)
  {
    assert (es + [Prune(r)])[..|es|] == es;
  }

  /**
   After every history a prune takes a live offer of its provider down if and only if the run behind
   the offer's last upsert had fetched before the pruning run started, whether or not the pruning run
   accepted the offer itself.
   */
  lemma PruneDarkensIff(es: seq<Event>, r: nat, key: OfferKey)
    requires Enabled(Reached(es), Prune(r)) && key.provider == Reached(es).runs[r].provider
    requires key in Reached(es).offers && Reached(es).offers[key].active
    ensures var after := Reached(es + [Prune(r)]).offers;
            key in after && (!after[key].active <==> WrittenFromBefore(es, r, key))
  {
    AfterPrune(es, r);
    WrittenFromBeforeMeans(es, r, key);
  }

  /** The f-th event is a fetch by a run of the offer's provider whose response it is accepted from. */
  ghost predicate Lists(es: seq<Event>, f: nat, key: OfferKey) {
    && f < |es| && es[f].Fetch? && Enabled(Reached(es[..f]), es[f])
    && Reached(es[..f]).runs[es[f].run].provider == key.provider && key.externalId in AcceptedIds(es[f].fetched)
  }

  /** An upsert is of an offer its run's fetch listed. */
  lemma UpsertsWhatWasListed(es: seq<Event>, u: nat, key: OfferKey)
    requires UpsertsAt(es, u, key)
    ensures FetchOf(es, u, es[u].run).Some? && Lists(es, FetchOf(es, u, es[u].run).value, key)
  {
    var x := Reached(es[..u]).runs[es[u].run];
    FetchedThen(es, u, es[u].run);
    AcceptedGrows(x.response.value.fetched, x.written);
    AcceptedPrefix(x.response.value.fetched, x.written + 1);
  }

  /** However runs overlap, what a prune leaves live was accepted from a response fetched after its run started. */
  lemma LiveWasListedSince(es: seq<Event>, r: nat, key: OfferKey)
    requires Enabled(Reached(es), Prune(r)) && key.provider == Reached(es).runs[r].provider
    requires var after := Reached(es + [Prune(r)]).offers; key in after && after[key].active
    ensures StartOf(es, |es|, r).Some?
    ensures exists f :: StartOf(es, |es|, r).value < f < |es| && Lists(es, f, key)
  {
    AfterPrune(es, r);
    PruneDarkensIff(es, r, key);
    assert es[..|es|] == es;
    LastSeen(es, |es|, key);
    StartedThen(es, |es|, r);
    UpsertsWhatWasListed(es, LastUpsert(es, |es|, key).value, key);
  }

  /**
   When no other run of the provider was under way since its start, an offer of the provider is live
   after the prune exactly when the run accepted it and it is not pulled: an admin's switches may land
   anywhere between the run's statements.
   */
  lemma PrunedRunIsExact(es: seq<Event>, r: nat, key: OfferKey)
    requires var s := Reached(es); Enabled(s, Prune(r)) && s.runs[r].alone && key.provider == s.runs[r].provider
    ensures var before, after := Reached(es), Reached(es + [Prune(r)]);
            (key in after.offers && after.offers[key].active) <==>
              key.externalId in Accepted(before.runs[r]) && !AdminPulled(before.offers, key)
  {
    EveryRun(es);
    var s := Reached(es);
    var x := s.runs[r];
    AfterPrune(es, r);
    assert RunOk(s, x) && AloneSoFar(s, x, key);
    assert x.response.value.fetched[..x.written] == x.response.value.fetched;
    if key in s.offers && s.offers[key].active {
      PruneDarkensIff(es, r, key);
      WrittenFromBeforeMeans(es, r, key);
    }
  }

  /** The offers run x accepted that an admin has pulled. */
  function PulledAccepted(s: Catalog, x: Run): set<OfferKey>
    requires x.response.Some?
  {
    set key | key in s.offers && key.provider == x.provider && key.externalId in Accepted(x) && AdminPulled(s.offers, key)
  }

  lemma Scales(t: nat, a: int, b: int)
    requires a <= b
    ensures t * a <= t * b
  {
  }

  /**
   What the guard is worth: a run alone on its provider leaves, with the accepted offers an admin had
   pulled, at least the threshold share of what was live at its count, so of what was live right before
   its prune less what an admin switched on in between.
   */
  lemma PruneLeavesTheThreshold(es: seq<Event>, r: nat)
    requires Enabled(Reached(es), Prune(r)) && Reached(es).runs[r].alone
    ensures var s, x, after := Reached(es), Reached(es).runs[r], Reached(es + [Prune(r)]);
            var left := |ActiveKeys(after.offers, x.provider)| + |PulledAccepted(s, x)|;
            && 100 * left >= x.guard.threshold * x.guard.live
            && 100 * left >= x.guard.threshold * (|ActiveKeys(s.offers, x.provider)| - x.restored)
  {
    EveryRun(es);
    var s, x, after := Reached(es), Reached(es).runs[r], Reached(es + [Prune(r)]);
    var accepted := set id | id in Accepted(x) :: OfferKey(x.provider, id);
    var kept := ActiveKeys(after.offers, x.provider) + PulledAccepted(s, x);
    assert RunOk(s, x) && CountHolds(s, x);
    KeysOfIds(Accepted(x), x.provider);
    forall key | key in accepted ensures key in kept {
      PrunedRunIsExact(es, r, key);
    }
    SubsetSize(accepted, kept);
    Scales(x.guard.threshold, |ActiveKeys(s.offers, x.provider)| - x.restored, x.guard.live);
  }

  // --- An uninterrupted run --------------------------------------------------------------

  /** The history with n upserts of run r after it, one after the other. */
  function WithUpserts(es: seq<Event>, r: nat, n: nat): seq<Event> {
    if n == 0 then es else WithUpserts(es, r, n - 1) + [WriteNext(r)]
  }

  lemma {:induction false} NextAfter(es: seq<Event>, e: Event)
    ensures Reached(es + [e]) == Next(Reached(es), e)
  {
    assert (es + [e])[..|es|] == es;
  }

  /** A full run that has fetched and done nothing since. */
  predicate HasFetched(s: Catalog, r: nat) {
    r in s.runs && s.runs[r].mode == Full && s.runs[r].response.Some? && s.runs[r].written == 0 && s.runs[r].guard.Unasked?
  }

  /** The catalog with run r's first n entries upserted. */
  function WithWritten(s: Catalog, r: nat, n: nat): Catalog
    requires HasFetched(s, r) && n <= |s.runs[r].response.value.fetched|
  {
    var x := s.runs[r];
    s.(offers := Written(s.offers, x.provider, x.response.value.fetched[..n], x.response.value.seenAt),
       runs := s.runs[r := x.(written := n)])
  }

  lemma OneWrite(s: Catalog, r: nat, n: nat)
    requires HasFetched(s, r) && n < |s.runs[r].response.value.fetched|
    ensures Next(WithWritten(s, r, n), WriteNext(r)) == WithWritten(s, r, n + 1)
  {
    var fetched := s.runs[r].response.value.fetched;
    assert fetched[..n + 1][..n] == fetched[..n];
  }

  lemma NothingWritten(s: Catalog, r: nat)
    requires HasFetched(s, r)
    ensures WithWritten(s, r, 0) == s
  {
    assert s.runs[r := s.runs[r].(written := 0)] == s.runs;
  }

  lemma {:induction false} AfterWrites(es: seq<Event>, r: nat, n: nat)
    requires HasFetched(Reached(es), r) && n <= |Reached(es).runs[r].response.value.fetched|
    ensures Reached(WithUpserts(es, r, n)) == WithWritten(Reached(es), r, n)
  {
    if n == 0 {
      NothingWritten(Reached(es), r);
    } else {
      AfterWrites(es, r, n - 1);
      NextAfter(WithUpserts(es, r, n - 1), WriteNext(r));
      OneWrite(Reached(es), r, n - 1);
    }
  }

  /** Count, decision and, if it is allowed, prune. */
  lemma GuardedPrune(s: Catalog, r: nat, threshold: nat)
    requires r in s.runs && AllWritten(s.runs[r]) && s.runs[r].mode == Full && s.runs[r].guard.Unasked?
    ensures var x, after := s.runs[r], Next(Next(Next(s, Count(r)), Decide(r, threshold)), Prune(r));
            && r !in after.runs
            && after.offers == if 100 * |Accepted(x)| >= threshold * |ActiveKeys(s.offers, x.provider)|
                               then Deactivated(s.offers, x.provider, x.startedAt) else s.offers
  {
  }

  /** The history with the rest of run r after it, nothing in between. */
  function Uninterrupted(es: seq<Event>, r: nat, n: nat, threshold: nat): seq<Event> {
    WithUpserts(es, r, n) + [Count(r)] + [Decide(r, threshold)] + [Prune(r)]
  }

  /**
   Without interruption the statements of a full run leave what the one synchronisation leaves: pruned if
   and only if it accepted at least the threshold share of what was live after its writes.
   */
  lemma {:induction false} UninterruptedRunIsSynced(es: seq<Event>, r: nat, threshold: nat)
    requires HasFetched(Reached(es), r)
    ensures var s, x := Reached(es), Reached(es).runs[r];
            var fetched, seenAt := x.response.value.fetched, x.response.value.seenAt;
            var after := Reached(Uninterrupted(es, r, |fetched|, threshold));
            && after.offers == Synced(s.offers, x.provider, Full, fetched, x.startedAt, seenAt, threshold)
            && r !in after.runs
  {
    var s, x := Reached(es), Reached(es).runs[r];
    var fetched, seenAt := x.response.value.fetched, x.response.value.seenAt;
    var written := WithUpserts(es, r, |fetched|);
    AfterWrites(es, r, |fetched|);
    assert fetched[..|fetched|] == fetched;
    NextAfter(written, Count(r));
    NextAfter(written + [Count(r)], Decide(r, threshold));
    NextAfter(written + [Count(r)] + [Decide(r, threshold)], Prune(r));
    GuardedPrune(WithWritten(s, r, |fetched|), r, threshold);
    PrunesIff(s.offers, x.provider, Full, fetched, x.startedAt, seenAt, threshold);
  }

  // --- Two runs overlap ------------------------------------------------------------------

  const OFFER := OfferKey(0, 1)
  const RESPONSE := [CatalogSyncs.Accepted(1, 9)]
  const OVERLAP := [
    Start(1, 0, Incremental), Fetch(1, RESPONSE), Start(2, 0, Full), Fetch(2, RESPONSE),
    WriteNext(2), WriteNext(1), Count(2), Decide(2, 50), Prune(2)]

  lemma AfterEvent(es: seq<Event>, k: nat, s: Catalog, s': Catalog)
    requires k < |es| && Reached(es[..k]) == s && Enabled(s, es[k]) && Apply(s, es[k]) == s'
    ensures Reached(es[..k + 1]) == s'
  {
    assert es[..k + 1][..k] == es[..k];
  }

  lemma UpToFirstFetched() returns (s: Catalog)
    ensures Reached(OVERLAP[..2]) == s
    ensures s == Catalog(map[], 2, map[1 := Run(0, Incremental, 1, Some(Response(RESPONSE, 2)), 0, Unasked, true, 0)])
  {
    var first := Apply(EMPTY_CATALOG, OVERLAP[0]);
    AfterEvent(OVERLAP, 0, EMPTY_CATALOG, first);
    assert first.runs == map[1 := Run(0, Incremental, 1, None, 0, Unasked, true, 0)];
    s := Apply(first, OVERLAP[1]);
    AfterEvent(OVERLAP, 1, first, s);
  }

  lemma UpToBothFetched() returns (s: Catalog)
    ensures Reached(OVERLAP[..4]) == s && s.offers == map[]
    ensures s.runs == map[1 := Run(0, Incremental, 1, Some(Response(RESPONSE, 2)), 0, Unasked, false, 0),
                          2 := Run(0, Full, 3, Some(Response(RESPONSE, 4)), 0, Unasked, false, 0)]
  {
    var fetched := UpToFirstFetched();
    assert 1 in fetched.runs && fetched.runs[1].provider == 0;
    var second := Apply(fetched, OVERLAP[2]);
    AfterEvent(OVERLAP, 2, fetched, second);
    assert second.runs == map[1 := fetched.runs[1].(alone := false), 2 := Run(0, Full, 3, None, 0, Unasked, false, 0)];
    s := Apply(second, OVERLAP[3]);
    AfterEvent(OVERLAP, 3, second, s);
  }

  lemma UpToBothWritten() returns (s: Catalog)
    ensures Reached(OVERLAP[..6]) == s && s.offers == map[OFFER := Offer(9, true, None, 2)]
    ensures 2 in s.runs && s.runs[2] == Run.Run(0, Full, 3, Some(Response(RESPONSE, 4)), 1, Unasked, false, 0)
  {
    var both := UpToBothFetched();
    var newer := Apply(both, WriteNext(2));
    AfterEvent(OVERLAP, 4, both, newer);
    assert newer.offers == map[OFFER := Offer(9, true, None, 4)];
    s := Apply(newer, WriteNext(1));
    AfterEvent(OVERLAP, 5, newer, s);
  }

  lemma UpToDecision() returns (s: Catalog)
    ensures Reached(OVERLAP[..8]) == s && s.offers == map[OFFER := Offer(9, true, None, 2)]
    ensures 2 in s.runs && s.runs[2] == Run.Run(0, Full, 3, Some(Response(RESPONSE, 4)), 1, Cleared(1, 50), false, 0)
  {
    var written := UpToBothWritten();
    assert ActiveKeys(written.offers, 0) == {OFFER};
    var counted := Apply(written, Count(2));
    AfterEvent(OVERLAP, 6, written, counted);
    s := Apply(counted, Decide(2, 50));
    AfterEvent(OVERLAP, 7, counted, s);
  }

  /** The pruning run takes down an offer it accepted itself: the other run, which fetched before it started, wrote last. */
  lemma OverlapDarkensAListedOffer()
    ensures var before, after := Reached(OVERLAP[..8]), Reached(OVERLAP);
            && 2 in before.runs && before.runs[2].response.Some? && 1 in Accepted(before.runs[2])
            && OFFER in before.offers && before.offers[OFFER].active && WrittenFromBefore(OVERLAP[..8], 2, OFFER)
            && OFFER in after.offers && !after.offers[OFFER].active
  {
    var s := UpToDecision();
    WrittenFromBeforeMeans(OVERLAP[..8], 2, OFFER);
    PruneDarkensIff(OVERLAP[..8], 2, OFFER);
    assert OVERLAP == OVERLAP[..8] + [Prune(2)];
  }
}
