/** Which offers are live, and who may change that: a sync undoes only what a sync did. */
module Offers {
  import opened Wrappers

  datatype DeactivationSource = ByAdmin | BySync

  datatype Offer = Offer(content: nat, active: bool, source: Option<DeactivationSource>, lastSeen: int)

  /** The unique key of an offer row. */
  datatype OfferKey = OfferKey(provider: nat, externalId: nat)

  type Table = map<OfferKey, Offer>

  predicate AdminPulled(offers: Table, key: OfferKey) {
    key in offers && !offers[key].active && offers[key].source == Some(ByAdmin)
  }

  // --- What each statement does ---------------------------------------------

  function Upserted(offers: Table, key: OfferKey, content: nat, seenAt: int): Table {
    if key in offers && !offers[key].active && offers[key].source == Some(ByAdmin) then
      offers[key := offers[key].(content := content, lastSeen := seenAt)]
    else
      offers[key := Offer(content, true, None, seenAt)]
  }

  predicate Unseen(offers: Table, key: OfferKey, provider: nat, startedAt: int) {
    key in offers && key.provider == provider && offers[key].active && offers[key].lastSeen < startedAt
  }

  function UnseenKeys(offers: Table, provider: nat, startedAt: int): set<OfferKey> {
    set key | key in offers && Unseen(offers, key, provider, startedAt)
  }

  function Deactivated(offers: Table, provider: nat, startedAt: int): Table {
    map key | key in offers ::
      if Unseen(offers, key, provider, startedAt) then offers[key].(active := false, source := Some(BySync)) else offers[key]
  }

  function ActiveKeys(offers: Table, provider: nat): set<OfferKey> {
    set key | key in offers && key.provider == provider && offers[key].active
  }

  function Switched(offers: Table, key: OfferKey, active: bool): Result<Table> {
    if key !in offers then Err(OfferNotFound)
    else if offers[key].active == active then Err(InvalidStateTransition)
    else Ok(offers[key := offers[key].(active := active, source := if active then None else Some(ByAdmin))])
  }

  /** An admin's switch is granted exactly when it changes something, and only switching off leaves the admin's name on it. */
  lemma SwitchAnswers(offers: Table, key: OfferKey, active: bool)
    ensures var answer := Switched(offers, key, active);
            && (answer == Err(OfferNotFound) <==> key !in offers)
            && (answer.Ok? <==> key in offers && offers[key].active != active)
            && (answer.Err? && key in offers ==> answer.error == InvalidStateTransition)
            && (answer.Ok? ==>
                  && answer.value.Keys == offers.Keys && answer.value[key].active == active
                  && answer.value[key].content == offers[key].content && answer.value[key].lastSeen == offers[key].lastSeen
                  && (AdminPulled(answer.value, key) <==> !active)
                  && forall other | other in offers && other != key :: answer.value[other] == offers[other])
  {
  }

  /** A sync may undo only a sync: what an upsert leaves live, and what it leaves pulled. */
  lemma UpsertActivates(offers: Table, key: OfferKey, content: nat, seenAt: int)
    ensures var after := Upserted(offers, key, content, seenAt);
            && after.Keys == offers.Keys + {key}
            && (after[key].active <==> !AdminPulled(offers, key))
            && AdminPulled(after, key) == AdminPulled(offers, key)
            && after[key].content == content && after[key].lastSeen == seenAt
            && forall other | other in offers && other != key :: after[other] == offers[other]
  {
  }

  /** The count of live offers falls by exactly what a deactivation reports, and no other provider's moves. */
  lemma DeactivationCounts(offers: Table, provider: nat, startedAt: int, other: nat)
    ensures var after := Deactivated(offers, provider, startedAt);
            && |ActiveKeys(after, provider)| + |UnseenKeys(offers, provider, startedAt)| == |ActiveKeys(offers, provider)|
            && (other != provider ==> ActiveKeys(after, other) == ActiveKeys(offers, other))
  {
    var live, off := ActiveKeys(Deactivated(offers, provider, startedAt), provider), UnseenKeys(offers, provider, startedAt);
    assert live !! off;
    assert live + off == ActiveKeys(offers, provider);
  }

  /** An upsert adds one to the count exactly when the offer was not live and no admin had pulled it. */
  lemma UpsertCounts(offers: Table, key: OfferKey, content: nat, seenAt: int)
    ensures |ActiveKeys(Upserted(offers, key, content, seenAt), key.provider)|
            == |ActiveKeys(offers, key.provider)|
               + if (key in offers && offers[key].active) || AdminPulled(offers, key) then 0 else 1
  {
    var before, after := ActiveKeys(offers, key.provider), ActiveKeys(Upserted(offers, key, content, seenAt), key.provider);
    if (key in offers && offers[key].active) || AdminPulled(offers, key) {
      assert after == before;
    } else {
      assert after == before + {key};
    }
  }

  class OffersService {
    var offers: Table

    constructor ()
      ensures offers == map[]
    {
      offers := map[];
    }

    method UpsertFromSync(provider: nat, externalId: nat, content: nat, seenAt: int) returns (created: bool)
      modifies this
      ensures offers == Upserted(old(offers), OfferKey(provider, externalId), content, seenAt)
      ensures created <==> OfferKey(provider, externalId) !in old(offers)
    {
      var key := OfferKey(provider, externalId);
      created := key !in offers;
      var adminDeactivated := !created && !offers[key].active && offers[key].source == Some(ByAdmin);
      if created {
        offers := offers[key := Offer(content, true, None, seenAt)];
      } else {
        var row := offers[key].(content := content, lastSeen := seenAt);
        if !adminDeactivated {
          row := row.(active := true, source := None);
        }
        offers := offers[key := row];
      }
    }

    method DeactivateUnseen(provider: nat, startedAt: int) returns (count: nat)
      modifies this
      ensures offers == Deactivated(old(offers), provider, startedAt)
      ensures count == |UnseenKeys(old(offers), provider, startedAt)|
    {
      count := |UnseenKeys(offers, provider, startedAt)|;
      offers := map key | key in offers ::
        if key.provider == provider && offers[key].active && offers[key].lastSeen < startedAt
        then offers[key].(active := false, source := Some(BySync)) else offers[key];
    }

    /** Every row is looked at once, in no particular order. */
    method CountActive(provider: nat) returns (count: nat)
      ensures count == |ActiveKeys(offers, provider)|
    {
      count := 0;
      var rest := offers.Keys;
      while rest != {}
        invariant rest <= offers.Keys
        invariant count == |ActiveKeys(offers, provider) - rest|
        decreases |rest|
      {
        var key :| key in rest;
        if key.provider == provider && offers[key].active {
          assert ActiveKeys(offers, provider) - (rest - {key}) == (ActiveKeys(offers, provider) - rest) + {key};
          count := count + 1;
        } else {
          assert ActiveKeys(offers, provider) - (rest - {key}) == ActiveKeys(offers, provider) - rest;
        }
        rest := rest - {key};
      }
      assert ActiveKeys(offers, provider) - rest == ActiveKeys(offers, provider);
    }

    method SetActive(key: OfferKey, active: bool) returns (answer: Result<Offer>)
      modifies this
      ensures match Switched(old(offers), key, active)
              case Ok(after) => offers == after && answer == Ok(after[key])
              case Err(e) => offers == old(offers) && answer == Err(e)
    {
      if key !in offers {
        return Err(OfferNotFound);
      }
      if offers[key].active == active {
        return Err(InvalidStateTransition);
      }
      var source := None;
      if !active {
        source := Some(ByAdmin);
      }
      offers := offers[key := offers[key].(active := active, source := source)];
      return Ok(offers[key]);
    }
  }
}
