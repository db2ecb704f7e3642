/** An admin's configuration change: refused when it was decided on another value, audited, then announced. */
module AdminConfigurations {
  import opened Wrappers
  import opened ConfigurationStores
  import opened ConfigurationCaches
  import Protocol = InvalidationProtocols
  import opened InvalidationBuses

  datatype Audit = Audit(slot: Slot, before: Option<Value>, after: Option<Value>)

  /** A GLOBAL change names no provider; a PROVIDER change names one that exists. */
  function CheckTarget(scope: Scope, scopeId: Option<string>, providers: set<string>): Result<()> {
    var named := scopeId.Some? && scopeId.value != "";
    if scope != Provider then (if named then Err(ScopeTargetInvalid) else Ok(()))
    else if !named then Err(ScopeTargetInvalid)
    else if scopeId.value !in providers then Err(Error.ProviderNotFound)
    else Ok(())
  }

  function CheckChange(
    defs: Definitions, key: Key, scope: Scope, scopeId: Option<string>, change: Option<Value>, providers: set<string>,
    values: map<Slot, Stored>, pre: Precondition): Result<(Slot, Option<Value>)>
  {
    if key !in defs then Err(UnknownKey)
    else
      var _ :- CheckTarget(scope, scopeId, providers);
      var slot := SlotFor(key, Some(scope), scopeId);
      if pre.Expecting? && pre.version != Version(values, slot) then Err(StaleWrite)
      else
        match change
        case None => var checked :- CheckUnset(defs, key, Some(scope), scopeId); Ok((checked, None))
        case Some(value) =>
          var checked :- CheckSet(defs, key, Some(scope), scopeId, value);
          Ok((checked.0, Some(checked.1)))
  }

  /** The transaction with nobody else in it: check, read, commit. */
  function Alone(s: Store, slot: Slot, change: Option<Value>, pre: Precondition): Store
    requires s.writers == map[] && !(pre.Expecting? && pre.version != Version(s.values, slot))
  {
    var checked := ApplyCheck(s, 0, slot, change, pre);
    ApplyCommit(Apply(checked, Read(0)), 0)
  }

  class AdminConfigurationService {
    const configuration: ConfigurationService
    const bus: InvalidationBus
    var store: Store
    var audit: seq<Audit>

    constructor (configuration: ConfigurationService, bus: InvalidationBus)
      requires bus.service == configuration
      ensures this.configuration == configuration && this.bus == bus && store == EMPTY_STORE && audit == []
    {
      this.configuration := configuration;
      this.bus := bus;
      store := EMPTY_STORE;
      audit := [];
    }

    ghost predicate Valid()
      reads this, bus
    {
      bus.Valid() && bus.service == configuration && store.writers == map[]
    }

    /** The write, its history row and the audit entry, together; `None` removes the override. */
    method Write(slot: Slot, change: Option<Value>, pre: Precondition) returns (changed: bool)
      requires store.writers == map[] && !(pre.Expecting? && pre.version != Version(store.values, slot))
      modifies this
      ensures store == Alone(old(store), slot, change, pre)
      ensures changed <==> change.Some? || slot in old(store).values
      ensures audit == old(audit) + if changed then [Audit(slot, StoredValue(old(store).values, slot), change)] else []
    {
      var previous := StoredValue(store.values, slot);
      ghost var was := store;
      if change.None? && previous.None? {
        assert Alone(was, slot, change, pre) == store;
        return false;
      }
      var entry := Entry(slot, previous, change, pre, pre.Expecting? && slot in store.values);
      var values := if change.Some? then store.values[slot := Stored(change.value, store.clock + 1)] else store.values - {slot};
      store := Store(values, store.history + [entry], map[], store.clock + 1);
      assert Alone(was, slot, change, pre).writers == map[];
      audit := audit + [Audit(slot, previous, change)];
      return true;
    }

    /** `set` with a value, `reset` without one; nothing is announced for a change that did not happen. */
    method Change(key: Key, scope: Scope, scopeId: Option<string>, change: Option<Value>, pre: Precondition,
      providers: set<string>, connected: bool) returns (answer: Result<bool>)
      requires Valid()
      modifies this, configuration`cache, bus`sent, bus`unannounced
      ensures Valid()
      ensures match CheckChange(configuration.defs, key, scope, scopeId, change, providers, old(store).values, pre)
              case Err(e) =>
                && answer == Err(e) && store == old(store) && audit == old(audit)
                && configuration.cache == old(configuration.cache) && bus.sent == old(bus.sent)
              case Ok((slot, parsed)) =>
                && answer == Ok(parsed.Some? || slot in old(store).values)
                && store == Alone(old(store), slot, parsed, pre)
                && (if answer.value then
                      && audit == old(audit) + [Audit(slot, StoredValue(old(store).values, slot), parsed)]
                      && configuration.cache == Dropped(old(configuration.cache), slot)
                      && (if connected then bus.sent == old(bus.sent) + [Protocol.Message(bus.instanceId, Protocol.Configuration, Some(slot))]
                          else bus.sent == old(bus.sent) && Protocol.Configuration in bus.unannounced)
                    else
                      audit == old(audit) && configuration.cache == old(configuration.cache) && bus.sent == old(bus.sent))
    {
      if key !in configuration.defs {
        return Err(UnknownKey);
      }
      var target := CheckTarget(scope, scopeId, providers);
      if target.Err? {
        return Err(target.error);
      }
      var slot := SlotFor(key, Some(scope), scopeId);
      if pre.Expecting? && pre.version != Version(store.values, slot) {
        return Err(StaleWrite);
      }
      var stored := None;
      if change.Some? {
        var checked := CheckSet(configuration.defs, key, Some(scope), scopeId, change.value);
        if checked.Err? {
          return Err(checked.error);
        }
        stored := Some(checked.value.1);
      } else {
        var checked := CheckUnset(configuration.defs, key, Some(scope), scopeId);
        if checked.Err? {
          return Err(checked.error);
        }
      }
      var changed := Write(slot, stored, pre);
      if changed {
        bus.InvalidateAndBroadcast(slot, connected);
      }
      return Ok(changed);
    }
  }

  /** What one uninterrupted transaction does to the table and its history. */
  lemma AloneMeans(s: Store, slot: Slot, change: Option<Value>, pre: Precondition)
    requires StoreInv(s) && s.writers == map[] && !(pre.Expecting? && pre.version != Version(s.values, slot))
    ensures var after := Alone(s, slot, change, pre);
            && StoreInv(after) && after.writers == map[]
            && StoredValue(after.values, slot) == change
            && (forall other | other != slot :: StoredValue(after.values, other) == StoredValue(s.values, other))
            && (change.Some? || slot in s.values ==>
                  |after.history| == |s.history| + 1 && Chains(after.history, |s.history|))
  {
    var check, read, commit := Check(0, slot, change, pre), Read(0), Event.Commit(0);
    EventKeeps(s, check);
    var checked := Apply(s, check);
    EventKeeps(checked, read);
    var ready := Apply(checked, read);
    EventKeeps(ready, commit);
    if change.Some? || slot in s.values {
      assert Apply(ready, commit).history[..|s.history|] == s.history;
      assert StoredValue(s.values, slot) == LastNew(s.history, slot);
    }
  }

  /** The table as the cache's service sees it: values without their versions. */
  function RowsOf(s: Store): Rows {
    map slot | slot in s.values :: s.values[slot].value
  }

  /**
   What the service writes for itself is one uninterrupted transaction that asserts nothing: the table and
   the history it leaves are that transaction's.
   */
  lemma ServiceWritesAreTransactions(s: Store, slot: Slot, value: Value)
    requires s.writers == map[]
    ensures var rows, stored := RowsOf(s), Alone(s, slot, Some(value), Unconditional);
            rows[slot := value] == RowsOf(stored) && s.history + [Change(slot, Before(rows, slot), Some(value))] == stored.history
    ensures var rows, removed := RowsOf(s), Alone(s, slot, None, Unconditional);
            && rows - {slot} == RowsOf(removed)
            && s.history + (if slot in rows then [Change(slot, Before(rows, slot), None)] else []) == removed.history
  {
  }

  /** The change has a target: everybody, without a provider's name, or a provider that is there. */
  predicate HasTarget(scope: Scope, scopeId: Option<string>, providers: set<string>) {
    if scope == Provider then IsNamed(scopeId) && scopeId.value in providers else !IsNamed(scopeId)
  }

  predicate IsCurrent(values: map<Slot, Stored>, slot: Slot, pre: Precondition) {
    match pre
    case Unconditional => true
    case Expecting(None) => slot !in values
    case Expecting(Some(version)) => slot in values && values[slot].updatedAt == version
  }

  /**
   Which changes are refused and why: the key, then the target, then a decision taken on another value, and
   only then what the definition says of the scope and of the value.
   */
  lemma ChangeAnswers(
    defs: Definitions, key: Key, scope: Scope, scopeId: Option<string>, change: Option<Value>, providers: set<string>,
    values: map<Slot, Stored>, pre: Precondition)
    ensures var checked := CheckChange(defs, key, scope, scopeId, change, providers, values, pre);
            var slot := Slot(key, scope, if scope == Provider && scopeId.Some? then scopeId.value else "");
            var asked := key in defs && HasTarget(scope, scopeId, providers);
            var current := asked && IsCurrent(values, slot, pre);
            var allowed := current && scope in defs[key].scopes;
            && (checked == Err(UnknownKey) <==> key !in defs)
            && (checked == Err(ScopeTargetInvalid) <==> key in defs && (scope == Provider <==> !IsNamed(scopeId)))
            && (checked == Err(Error.ProviderNotFound) <==>
                  key in defs && scope == Provider && IsNamed(scopeId) && scopeId.value !in providers)
            && (checked == Err(StaleWrite) <==> asked && !current)
            && (checked == Err(InvalidScope) <==> current && !allowed)
            && (checked == Err(InvalidValue) <==> allowed && change.Some? && defs[key].parse(change.value).None?)
            && (checked.Ok? <==> allowed && (change.Some? ==> defs[key].parse(change.value).Some?))
            && (checked.Ok? ==> checked.value == (slot, if change.Some? then defs[key].parse(change.value) else None))
  {
  }

  /** A version is good for one change: whoever comes second with it is refused. */
  lemma SecondUseIsStale(s: Store, slot: Slot, change: Option<Value>, version: int,
    defs: Definitions, key: Key, scope: Scope, scopeId: Option<string>, second: Option<Value>, providers: set<string>)
    requires StoreInv(s) && s.writers == map[] && Version(s.values, slot) == Some(version)
    requires key in defs && CheckTarget(scope, scopeId, providers).Ok? && SlotFor(key, Some(scope), scopeId) == slot
    ensures var after := Alone(s, slot, change, Expecting(Some(version)));
            CheckChange(defs, key, scope, scopeId, second, providers, after.values, Expecting(Some(version))) == Err(StaleWrite)
  {
  }
}
