/** Synchronising one provider's catalog: the write loop, its counters, and the guard in front of pruning. */
module CatalogSyncs {
  import opened Wrappers
  import opened Offers
  import opened Sets

  datatype Reason =
    | MissingRequiredField
    | InvalidPayout
    | CurrencyNotSupported
    | RewardTooSmall
    | NoTargetDevice
    | DuplicateExternalId

  /** What normalising one fetched offer came to. */
  datatype Mapped = Accepted(externalId: nat, content: nat) | Refused(reason: Reason)

  datatype Mode = Incremental | Full
  datatype Outcome = Success | Partial | Failure

  datatype Counts = Counts(
    outcome: Outcome,
    fetched: nat,
    accepted: nat,
    rejected: nat,
    created: nat,
    updated: nat,
    deactivated: nat,
    rejections: map<Reason, nat>)

  const NO_COUNTS := Counts(Success, 0, 0, 0, 0, 0, 0, map[])

  // --- What a response contains ---------------------------------------------

  function AcceptedIds(fetched: seq<Mapped>): set<nat> {
    if fetched == [] then {}
    else
      var n := |fetched| - 1;
      if fetched[n].Accepted? then AcceptedIds(fetched[..n]) + {fetched[n].externalId} else AcceptedIds(fetched[..n])
  }

  /** An id is accepted exactly when some entry with it mapped, whatever comes after. */
  lemma {:induction false} AcceptedMeans(fetched: seq<Mapped>, id: nat)
    ensures id in AcceptedIds(fetched) <==> exists i | 0 <= i < |fetched| :: fetched[i].Accepted? && fetched[i].externalId == id
  {
    if fetched != [] {
      var n := |fetched| - 1;
      AcceptedMeans(fetched[..n], id);
    }
  }

  predicate Writes(fetched: seq<Mapped>, i: nat)
    requires i < |fetched|
  {
    fetched[i].Accepted? && fetched[i].externalId !in AcceptedIds(fetched[..i])
  }

  /** Why the i-th entry is not written: its own reason, or that its id was already accepted. */
  function RefusalOf(fetched: seq<Mapped>, i: nat): Option<Reason>
    requires i < |fetched|
  {
    if fetched[i].Refused? then Some(fetched[i].reason)
    else if fetched[i].externalId in AcceptedIds(fetched[..i]) then Some(DuplicateExternalId)
    else None
  }

  function CountRefusals(fetched: seq<Mapped>, reason: Reason): nat {
    if fetched == [] then 0
    else
      var n := |fetched| - 1;
      CountRefusals(fetched[..n], reason) + (if RefusalOf(fetched, n) == Some(reason) then 1 else 0)
  }

  /** The table after the accepted entries were upserted in order, duplicates skipped. */
  function Written(offers: Table, provider: nat, fetched: seq<Mapped>, seenAt: int): Table {
    if fetched == [] then offers
    else
      var n := |fetched| - 1;
      var prior := Written(offers, provider, fetched[..n], seenAt);
      if Writes(fetched, n)
      then Upserted(prior, OfferKey(provider, fetched[n].externalId), fetched[n].content, seenAt)
      else prior
  }

  predicate Listed(fetched: seq<Mapped>, provider: nat, key: OfferKey) {
    key.provider == provider && key.externalId in AcceptedIds(fetched)
  }

  /**
   Each accepted id is written exactly once, from its first mention; it ends up live unless an
   admin had pulled it, and nothing else in the table moves.
   */
  lemma {:induction false} WrittenMeans(offers: Table, provider: nat, fetched: seq<Mapped>, seenAt: int, key: OfferKey)
    ensures var after := Written(offers, provider, fetched, seenAt);
            && (Listed(fetched, provider, key) ==>
                  && key in after && after[key].lastSeen == seenAt
                  && (after[key].active <==> !AdminPulled(offers, key))
                  && AdminPulled(after, key) == AdminPulled(offers, key)
                  && exists i | 0 <= i < |fetched| ::
                       Writes(fetched, i) && fetched[i].externalId == key.externalId && after[key].content == fetched[i].content)
            && (!Listed(fetched, provider, key) ==>
                  && (key in after <==> key in offers)
                  && (key in offers ==> after[key] == offers[key]))
  {
    if fetched != [] {
      var n := |fetched| - 1;
      WrittenMeans(offers, provider, fetched[..n], seenAt, key);
      assert fetched == fetched[..n] + [fetched[n]];
      if Listed(fetched[..n], provider, key) {
        var i :| 0 <= i < n && Writes(fetched[..n], i) && fetched[i].externalId == key.externalId
                 && Written(offers, provider, fetched[..n], seenAt)[key].content == fetched[i].content;
        assert fetched[..n][..i] == fetched[..i];
        assert Writes(fetched, i);
      }
    }
  }

  // --- The counters ---------------------------------------------------------

  function RejectedFor(rejections: map<Reason, nat>, reason: Reason): nat {
    if reason in rejections then rejections[reason] else 0
  }

  function RejectionTotal(rejections: map<Reason, nat>): nat {
    RejectedFor(rejections, MissingRequiredField) + RejectedFor(rejections, InvalidPayout)
    + RejectedFor(rejections, CurrencyNotSupported) + RejectedFor(rejections, RewardTooSmall)
    + RejectedFor(rejections, NoTargetDevice) + RejectedFor(rejections, DuplicateExternalId)
  }

  function Bumped(rejections: map<Reason, nat>, reason: Reason): map<Reason, nat> {
    rejections[reason := RejectedFor(rejections, reason) + 1]
  }

  lemma BumpAddsOne(rejections: map<Reason, nat>, reason: Reason)
    ensures RejectionTotal(Bumped(rejections, reason)) == RejectionTotal(rejections) + 1
  {
  }

  /** What the counters say about the entries processed so far. */
  ghost predicate Tallies(counts: Counts, offers: Table, provider: nat, fetched: seq<Mapped>) {
    && counts.accepted == |AcceptedIds(fetched)| == counts.created + counts.updated
    && counts.accepted + counts.rejected == |fetched|
    && counts.created == |NewIds(offers, provider, fetched)|
    && RejectionTotal(counts.rejections) == counts.rejected
    && (forall reason :: reason in counts.rejections <==> 0 < CountRefusals(fetched, reason))
    && (forall reason | reason in counts.rejections :: counts.rejections[reason] == CountRefusals(fetched, reason))
  }

  function NewIds(offers: Table, provider: nat, fetched: seq<Mapped>): set<nat> {
    set id | id in AcceptedIds(fetched) && OfferKey(provider, id) !in offers
  }

  lemma RefusalTallied(counts: Counts, offers: Table, provider: nat, fetched: seq<Mapped>, reason: Reason)
    requires fetched != [] && Tallies(counts, offers, provider, fetched[..|fetched| - 1])
    requires RefusalOf(fetched, |fetched| - 1) == Some(reason)
    ensures Tallies(counts.(rejected := counts.rejected + 1, rejections := Bumped(counts.rejections, reason)),
                    offers, provider, fetched)
  {
    var n := |fetched| - 1;
    BumpAddsOne(counts.rejections, reason);
    assert AcceptedIds(fetched) == AcceptedIds(fetched[..n]);
    forall other ensures CountRefusals(fetched, other) == CountRefusals(fetched[..n], other) + if other == reason then 1 else 0 {
    }
  }

  lemma AcceptanceTallied(counts: Counts, offers: Table, provider: nat, fetched: seq<Mapped>, created: bool)
    requires fetched != [] && Tallies(counts, offers, provider, fetched[..|fetched| - 1])
    requires Writes(fetched, |fetched| - 1)
    requires created <==> OfferKey(provider, fetched[|fetched| - 1].externalId) !in offers
    ensures Tallies(WithAcceptance(counts, created), offers, provider, fetched)
  {
    var n := |fetched| - 1;
    var id := fetched[n].externalId;
    assert AcceptedIds(fetched) == AcceptedIds(fetched[..n]) + {id};
    if created {
      assert NewIds(offers, provider, fetched) == NewIds(offers, provider, fetched[..n]) + {id};
    } else {
      assert NewIds(offers, provider, fetched) == NewIds(offers, provider, fetched[..n]);
    }
    forall reason ensures CountRefusals(fetched, reason) == CountRefusals(fetched[..n], reason) {
    }
  }

  function WithAcceptance(counts: Counts, created: bool): Counts {
    counts.(accepted := counts.accepted + 1,
            created := counts.created + (if created then 1 else 0),
            updated := counts.updated + (if created then 0 else 1))
  }

  /** Where the loop is after the entries of `fetched`. */
  ghost predicate Progress(
    counts: Counts, was: Table, now: Table, provider: nat, fetched: seq<Mapped>, seenAt: int, seen: set<nat>)
  {
    && seen == AcceptedIds(fetched)
    && now == Written(was, provider, fetched, seenAt)
    && Tallies(counts, was, provider, fetched)
  }

  lemma RefusalSteps(
    counts: Counts, was: Table, now: Table, provider: nat, fetched: seq<Mapped>, i: nat, seenAt: int, seen: set<nat>, reason: Reason)
    requires i < |fetched| && Progress(counts, was, now, provider, fetched[..i], seenAt, seen)
    requires RefusalOf(fetched, i) == Some(reason)
    ensures Progress(counts.(rejected := counts.rejected + 1, rejections := Bumped(counts.rejections, reason)),
                     was, now, provider, fetched[..i + 1], seenAt, seen)
  {
    var prefix := fetched[..i + 1];
    assert prefix[..i] == fetched[..i];
    RefusalTallied(counts, was, provider, prefix, reason);
    assert AcceptedIds(prefix) == AcceptedIds(fetched[..i]);
  }

  lemma AcceptanceSteps(
    counts: Counts, was: Table, now: Table, provider: nat, fetched: seq<Mapped>, i: nat, seenAt: int, seen: set<nat>,
    source: Mapped, created: bool)
    requires i < |fetched| && Progress(counts, was, now, provider, fetched[..i], seenAt, seen)
    requires source == fetched[i] && Writes(fetched, i)
    requires created <==> OfferKey(provider, source.externalId) !in now
    ensures Progress(WithAcceptance(counts, created), was,
                     Upserted(now, OfferKey(provider, source.externalId), source.content, seenAt),
                     provider, fetched[..i + 1], seenAt, seen + {source.externalId})
  {
    var prefix := fetched[..i + 1];
    assert prefix[..i] == fetched[..i];
    WrittenMeans(was, provider, fetched[..i], seenAt, OfferKey(provider, source.externalId));
    AcceptanceTallied(counts, was, provider, prefix, created);
  }

  function Refusals(fetched: seq<Mapped>, reason: Reason): set<int> {
    set i | 0 <= i < |fetched| && RefusalOf(fetched, i) == Some(reason)
  }

  lemma OneMoreEntry(fetched: seq<Mapped>, reason: Reason)
    requires fetched != []
    ensures var n := |fetched| - 1;
            Refusals(fetched, reason) == Refusals(fetched[..n], reason) + if RefusalOf(fetched, n) == Some(reason) then {n} else {}
  {
    var n := |fetched| - 1;
    forall i | 0 <= i < n ensures RefusalOf(fetched[..n], i) == RefusalOf(fetched, i) {
      assert fetched[..n][..i] == fetched[..i];
    }
  }

  /** The rejection counters are numbers of entries. */
  lemma {:induction false} RefusalsAreEntries(fetched: seq<Mapped>, reason: Reason)
    ensures CountRefusals(fetched, reason) == |Refusals(fetched, reason)|
  {
    if fetched != [] {
      OneMoreEntry(fetched, reason);
      RefusalsAreEntries(fetched[..|fetched| - 1], reason);
    }
  }

  // --- The service ----------------------------------------------------------

  /** Accepted offers that an admin had pulled: counted as accepted, left off the wall. */
  function PulledKeys(offers: Table, provider: nat, fetched: seq<Mapped>): set<OfferKey> {
    set key | key in offers && Listed(fetched, provider, key) && AdminPulled(offers, key)
  }

  predicate RefusesToPrune(offers: Table, provider: nat, accepted: nat, threshold: nat) {
    var activeBefore := |ActiveKeys(offers, provider)|;
    activeBefore > 0 && accepted * 100 < activeBefore * threshold
  }

  /** The write of entry `breaksAt`, or of the first one after it, fails. */
  predicate Breaks(fetched: seq<Mapped>, breaksAt: nat) {
    exists i | breaksAt <= i < |fetched| :: Writes(fetched, i)
  }

  /** What was written before the failure stays written; nothing was pruned. */
  predicate StoppedAt(was: Table, now: Table, provider: nat, fetched: seq<Mapped>, seenAt: int, done: nat) {
    done <= |fetched| && now == Written(was, provider, fetched[..done], seenAt)
  }

  /** What can fail once everything is written: the count, the threshold read, the prune, the health record after it. */
  datatype Fault = NoFault | CountFails | ThresholdFails | PruneFails | HealthFails

  /** The threshold is only read for a live catalog, and only a run that is not refused prunes. */
  predicate GuardFails(offers: Table, provider: nat, accepted: nat, threshold: nat, fault: Fault) {
    || fault == CountFails
    || (fault == ThresholdFails && ActiveKeys(offers, provider) != {})
    || (fault == PruneFails && !RefusesToPrune(offers, provider, accepted, threshold))
  }

  /** Which faults the guard meets: the threshold is only asked for a live catalog, the prune only sent when it is safe. */
  lemma WhatTheGuardMeets(offers: Table, provider: nat, accepted: nat, threshold: nat, fault: Fault)
    ensures GuardFails(offers, provider, accepted, threshold, fault) <==>
              match fault
              case NoFault => false
              case CountFails => true
              case ThresholdFails => exists key | key in offers :: key.provider == provider && offers[key].active
              case PruneFails => threshold * |ActiveKeys(offers, provider)| <= 100 * accepted
              case HealthFails => false
  {
    if exists key | key in offers :: key.provider == provider && offers[key].active {
      var key :| key in offers && key.provider == provider && offers[key].active;
      assert key in ActiveKeys(offers, provider);
    } else {
      assert ActiveKeys(offers, provider) == {};
    }
  }

  /** The table after a run whose writes all landed. */
  function Synced(offers: Table, provider: nat, mode: Mode, fetched: seq<Mapped>, startedAt: int, seenAt: int, threshold: nat): Table {
    var written := Written(offers, provider, fetched, seenAt);
    if mode == Full && !RefusesToPrune(written, provider, |AcceptedIds(fetched)|, threshold)
    then Deactivated(written, provider, startedAt)
    else written
  }

  class CatalogSyncService {
    const offers: OffersService

    constructor (offers: OffersService)
      ensures this.offers == offers
    {
      this.offers := offers;
    }

    /** Writes what mapped, counts what did not; the write of entry `breaksAt` or later fails. */
    method WriteOffers(provider: nat, fetched: seq<Mapped>, seenAt: int, breaksAt: nat)
      returns (counts: Counts, ok: bool, done: nat)
      modifies offers
      ensures done <= |fetched| && (ok <==> done == |fetched|)
      ensures ok <==> !Breaks(fetched, breaksAt)
      ensures offers.offers == Written(old(offers.offers), provider, fetched[..done], seenAt)
      ensures Tallies(counts, old(offers.offers), provider, fetched[..done])
      ensures counts.outcome == Success && counts.fetched == |fetched| && counts.deactivated == 0
    {
      counts := NO_COUNTS.(fetched := |fetched|);
      var seen: set<nat> := {};
      done := 0;
      ghost var was := offers.offers;
      while done < |fetched|
        invariant done <= |fetched|
        invariant forall i | breaksAt <= i < done :: !Writes(fetched, i)
        invariant Progress(counts, was, offers.offers, provider, fetched[..done], seenAt, seen)
        invariant counts.outcome == Success && counts.fetched == |fetched| && counts.deactivated == 0
      {
        var source := fetched[done];
        if source.Refused? {
          RefusalSteps(counts, was, offers.offers, provider, fetched, done, seenAt, seen, source.reason);
          counts := counts.(rejected := counts.rejected + 1, rejections := Bumped(counts.rejections, source.reason));
        } else if source.externalId in seen {
          RefusalSteps(counts, was, offers.offers, provider, fetched, done, seenAt, seen, DuplicateExternalId);
          counts := counts.(rejected := counts.rejected + 1, rejections := Bumped(counts.rejections, DuplicateExternalId));
        } else {
          if breaksAt <= done {
            assert Writes(fetched, done);
            return counts, false, done;
          }
          ghost var now := offers.offers;
          var created := offers.UpsertFromSync(provider, source.externalId, source.content, seenAt);
          AcceptanceSteps(counts, was, now, provider, fetched, done, seenAt, seen, source, created);
          seen := seen + {source.externalId};
          counts := WithAcceptance(counts, created);
        }
        done := done + 1;
      }
      assert fetched[..done] == fetched;
      ok := true;
    }

    /** Counted after the writes: a refusal or a failure switches nothing off. */
    method PruneIfSafe(provider: nat, startedAt: int, accepted: nat, threshold: nat, fault: Fault)
      returns (ok: bool, pruned: bool, deactivated: nat)
      modifies offers
      ensures ok <==> !GuardFails(old(offers.offers), provider, accepted, threshold, fault)
      ensures pruned <==> ok && !RefusesToPrune(old(offers.offers), provider, accepted, threshold)
      ensures offers.offers == if pruned then Deactivated(old(offers.offers), provider, startedAt) else old(offers.offers)
      ensures deactivated == if pruned then |UnseenKeys(old(offers.offers), provider, startedAt)| else 0
    {
      ok, pruned, deactivated := false, false, 0;
      if fault == CountFails {
        return;
      }
      var activeBefore := offers.CountActive(provider);
      if activeBefore > 0 {
        if fault == ThresholdFails {
          return;
        }
        if accepted * 100 < activeBefore * threshold {
          ok := true;
          return;
        }
      }
      if fault == PruneFails {
        return;
      }
      deactivated := offers.DeactivateUnseen(provider, startedAt);
      ok, pruned := true, true;
    }

    /** One run; `fetched` is absent when the provider could not be asked. */
    method Sync(
      provider: nat, mode: Mode, fetched: Option<seq<Mapped>>, startedAt: int, seenAt: int, breaksAt: nat,
      threshold: nat, fault: Fault)
      returns (counts: Counts)
      modifies offers
      ensures counts.outcome == Failure <==>
                fetched.None? || Breaks(fetched.value, breaksAt) || fault == HealthFails
                || (mode == Full
                    && var written := Written(old(offers.offers), provider, fetched.value, seenAt);
                       GuardFails(written, provider, |AcceptedIds(fetched.value)|, threshold, fault))
      ensures counts.outcome != Failure ==>
                && offers.offers == Synced(old(offers.offers), provider, mode, fetched.value, startedAt, seenAt, threshold)
                && Tallies(counts, old(offers.offers), provider, fetched.value)
                && (counts.outcome == Partial <==>
                      mode == Full
                      && RefusesToPrune(Written(old(offers.offers), provider, fetched.value, seenAt), provider, counts.accepted, threshold))
      ensures counts.outcome == Failure ==>
                if fetched.None? then offers.offers == old(offers.offers)
                else if fault == HealthFails && !Breaks(fetched.value, breaksAt) then
                  offers.offers == Synced(old(offers.offers), provider, mode, fetched.value, startedAt, seenAt, threshold)
                else exists done :: StoppedAt(old(offers.offers), offers.offers, provider, fetched.value, seenAt, done)
    {
      if fetched.None? {
        return NO_COUNTS.(outcome := Failure);
      }
      var ok, done;
      counts, ok, done := WriteOffers(provider, fetched.value, seenAt, breaksAt);
      assert fetched.value[..|fetched.value|] == fetched.value;
      assert StoppedAt(old(offers.offers), offers.offers, provider, fetched.value, seenAt, done);
      if !ok {
        return counts.(outcome := Failure);
      }
      if mode == Full {
        var safe, pruned, deactivated := PruneIfSafe(provider, startedAt, counts.accepted, threshold, fault);
        if !safe {
          return counts.(outcome := Failure);
        }
        counts := counts.(deactivated := deactivated);
        if !pruned {
          counts := counts.(outcome := Partial);
        }
      }
      if fault == HealthFails {
        return counts.(outcome := Failure);
      }
    }
  }

  // --- What a full run leaves ------------------------------------------------

  /** No stored offer of this provider was seen at or after the start of the run: nothing overlapped it. */
  predicate NotOverlapped(offers: Table, provider: nat, startedAt: int) {
    forall key | key in offers && key.provider == provider :: offers[key].lastSeen < startedAt
  }

  /**
   A full run prunes if and only if it accepted at least the threshold share of what was live once it had
   written everything; an incremental one never does.
   */
  lemma PrunesIff(offers: Table, provider: nat, mode: Mode, fetched: seq<Mapped>, startedAt: int, seenAt: int, threshold: nat)
    ensures var written := Written(offers, provider, fetched, seenAt);
            Synced(offers, provider, mode, fetched, startedAt, seenAt, threshold)
            == if mode == Full && 100 * |AcceptedIds(fetched)| >= threshold * |ActiveKeys(written, provider)|
               then Deactivated(written, provider, startedAt) else written
  {
  }

  /** After a pruned full run an offer is live exactly when it was listed and no admin had pulled it. */
  lemma FullSyncIsExact(offers: Table, provider: nat, fetched: seq<Mapped>, startedAt: int, seenAt: int, threshold: nat, key: OfferKey)
    requires startedAt <= seenAt && NotOverlapped(offers, provider, startedAt) && key.provider == provider
    requires !RefusesToPrune(Written(offers, provider, fetched, seenAt), provider, |AcceptedIds(fetched)|, threshold)
    ensures var after := Synced(offers, provider, Full, fetched, startedAt, seenAt, threshold);
            (key in after && after[key].active) <==> (key.externalId in AcceptedIds(fetched) && !AdminPulled(offers, key))
  {
    WrittenMeans(offers, provider, fetched, seenAt, key);
  }

  /** For any table: what was not listed stays live exactly when it was last seen at or after the start. */
  lemma PrunedIsUnseen(offers: Table, provider: nat, fetched: seq<Mapped>, startedAt: int, seenAt: int, threshold: nat, key: OfferKey)
    requires !RefusesToPrune(Written(offers, provider, fetched, seenAt), provider, |AcceptedIds(fetched)|, threshold)
    ensures var after := Synced(offers, provider, Full, fetched, startedAt, seenAt, threshold);
            (key in after && after[key].active) <==>
              if Listed(fetched, provider, key) then !AdminPulled(offers, key) && startedAt <= seenAt
              else key in offers && offers[key].active && (key.provider != provider || startedAt <= offers[key].lastSeen)
  {
    WrittenMeans(offers, provider, fetched, seenAt, key);
  }

  /** A refused prune switches nothing off. */
  lemma RefusalDarkensNothing(offers: Table, provider: nat, fetched: seq<Mapped>, startedAt: int, seenAt: int, threshold: nat, key: OfferKey)
    requires RefusesToPrune(Written(offers, provider, fetched, seenAt), provider, |AcceptedIds(fetched)|, threshold)
    requires key in offers && offers[key].active
    ensures var after := Synced(offers, provider, Full, fetched, startedAt, seenAt, threshold); key in after && after[key].active
  {
    WrittenMeans(offers, provider, fetched, seenAt, key);
  }

  /** A response with nothing usable in it never darkens a live catalog, for any positive threshold. */
  lemma NothingUsableDarkensNothing(offers: Table, provider: nat, fetched: seq<Mapped>, startedAt: int, seenAt: int, threshold: nat)
    requires threshold > 0 && AcceptedIds(fetched) == {}
    ensures ActiveKeys(offers, provider) != {} ==> Synced(offers, provider, Full, fetched, startedAt, seenAt, threshold) == offers
  {
  }

  /**
   The guard's arithmetic: a run that switches anything off leaves, with the listed offers an admin
   had pulled, at least the threshold share of what was live before pruning.
   */
  lemma PruningLeavesTheThreshold(offers: Table, provider: nat, fetched: seq<Mapped>, startedAt: int, seenAt: int, threshold: nat)
    requires startedAt <= seenAt
    requires var written := Written(offers, provider, fetched, seenAt);
             && !RefusesToPrune(written, provider, |AcceptedIds(fetched)|, threshold)
             && UnseenKeys(written, provider, startedAt) != {}
    ensures var written := Written(offers, provider, fetched, seenAt);
            var after := Synced(offers, provider, Full, fetched, startedAt, seenAt, threshold);
            100 * (|ActiveKeys(after, provider)| + |PulledKeys(offers, provider, fetched)|)
            >= threshold * |ActiveKeys(written, provider)|
  {
    var written := Written(offers, provider, fetched, seenAt);
    var after := Synced(offers, provider, Full, fetched, startedAt, seenAt, threshold);
    var listed := set id | id in AcceptedIds(fetched) :: OfferKey(provider, id);
    KeysOfIds(AcceptedIds(fetched), provider);
    forall key | key in listed ensures key in ActiveKeys(after, provider) + PulledKeys(offers, provider, fetched) {
      WrittenMeans(offers, provider, fetched, seenAt, key);
    }
    SubsetSize(listed, ActiveKeys(after, provider) + PulledKeys(offers, provider, fetched));
    var some :| some in UnseenKeys(written, provider, startedAt);
    assert some in ActiveKeys(written, provider);
    assert |AcceptedIds(fetched)| * 100 >= |ActiveKeys(written, provider)| * threshold;
  }

  lemma {:induction false} KeysOfIds(ids: set<nat>, provider: nat)
    ensures |set id | id in ids :: OfferKey(provider, id)| == |ids|
    decreases |ids|
  {
    var keys := set id | id in ids :: OfferKey(provider, id);
    if ids != {} {
      var one :| one in ids;
      KeysOfIds(ids - {one}, provider);
      assert keys == (set id | id in ids - {one} :: OfferKey(provider, id)) + {OfferKey(provider, one)};
    } else {
      assert keys == {};
    }
  }
}
