/** The in-process cache of stored configuration rows, cached misses included, and the lookup through it. */
module ConfigurationCaches {
  import opened Wrappers
  import opened ConfigurationStores

  type Rows = map<Slot, Value>

  /** A cached `None` is a remembered miss; an absent entry is unknown. */
  datatype Cache = Cache(entries: map<Slot, Option<Value>>, generation: nat)

  const EMPTY_CACHE := Cache(map[], 0)

  // --- What the cache does --------------------------------------------------

  function Dropped(c: Cache, slot: Slot): Cache {
    Cache(c.entries - {slot}, c.generation + 1)
  }

  function DroppedAll(c: Cache): Cache {
    Cache(map[], c.generation + 1)
  }

  /** A read that an invalidation overtook is not remembered. */
  function Remembered(c: Cache, slot: Slot, found: Option<Value>, generation: nat): Cache {
    if generation == c.generation then c.(entries := c.entries[slot := found]) else c
  }

  // --- What the database says -----------------------------------------------

  /** The row as a read sees it: absent, rejected by today's schema, or parsed. */
  function Fetched(rows: Rows, parse: Value -> Option<Value>, slot: Slot): Option<Value> {
    if slot in rows then parse(rows[slot]) else None
  }

  datatype Origin = FromProvider | FromGlobal | FromDefault

  datatype Resolution = Resolution(value: Value, origin: Origin)

  function ProviderSlot(key: Key, scopeId: string): Slot {
    Slot(key, Provider, scopeId)
  }

  function GlobalSlot(key: Key): Slot {
    Slot(key, Global, GLOBAL_SCOPE_ID)
  }

  predicate AsksProvider(d: Definition, scopeId: Option<string>) {
    scopeId.Some? && Provider in d.scopes
  }

  /** The value in force, straight from the stored rows: PROVIDER, then GLOBAL, then the default. */
  function PlainResolve(rows: Rows, d: Definition, key: Key, scopeId: Option<string>): Resolution {
    var scoped := if AsksProvider(d, scopeId) then Fetched(rows, d.parse, ProviderSlot(key, scopeId.value)) else None;
    var shared := Fetched(rows, d.parse, GlobalSlot(key));
    if scoped.Some? then Resolution(scoped.value, FromProvider)
    else if shared.Some? then Resolution(shared.value, FromGlobal)
    else Resolution(d.defaultValue, FromDefault)
  }

  // --- When the two agree ---------------------------------------------------

  /** Every cached entry is what a fresh read would find. */
  ghost predicate Coherent(c: Cache, rows: Rows, defs: Definitions) {
    forall slot | slot in c.entries ::
      slot.key in defs && c.entries[slot] == Fetched(rows, defs[slot.key].parse, slot)
  }

  /** A read through the cache: the entry if there is one, otherwise the row. */
  function View(c: Cache, rows: Rows, parse: Value -> Option<Value>, slot: Slot): Option<Value> {
    if slot in c.entries then c.entries[slot] else Fetched(rows, parse, slot)
  }

  function Cached(c: Cache, rows: Rows, parse: Value -> Option<Value>, slot: Slot): Cache {
    if slot in c.entries then c else c.(entries := c.entries[slot := Fetched(rows, parse, slot)])
  }

  function Before(rows: Rows, slot: Slot): Option<Value> {
    if slot in rows then Some(rows[slot]) else None
  }

  /** The history row of an unconditional write in its own transaction. */
  function Change(slot: Slot, before: Option<Value>, became: Option<Value>): Entry {
    Entry(slot, before, became, Unconditional, false)
  }

  class ConfigurationService {
    const defs: Definitions
    var rows: Rows
    var history: seq<Entry>
    var cache: Cache

    constructor (defs: Definitions)
      ensures this.defs == defs && rows == map[] && history == [] && cache == EMPTY_CACHE
    {
      this.defs := defs;
      rows := map[];
      history := [];
      cache := EMPTY_CACHE;
    }

    method Invalidate(slot: Slot)
      modifies this`cache
      ensures cache == Dropped(old(cache), slot)
    {
      cache := Cache(cache.entries - {slot}, cache.generation + 1);
    }

    method InvalidateAll()
      modifies this`cache
      ensures cache == DroppedAll(old(cache))
    {
      cache := Cache(map[], cache.generation + 1);
    }

    method Remember(slot: Slot, found: Option<Value>, generation: nat)
      modifies this`cache
      ensures cache == Remembered(old(cache), slot, found, generation)
    {
      if generation != cache.generation {
        return;
      }
      cache := cache.(entries := cache.entries[slot := found]);
    }

    /** One stored row through the cache; nothing else runs between the query and the write-back. */
    method ReadStored(slot: Slot, d: Definition) returns (found: Option<Value>)
      modifies this`cache
      ensures found == View(old(cache), rows, d.parse, slot)
      ensures cache == Cached(old(cache), rows, d.parse, slot)
    {
      if slot in cache.entries {
        return cache.entries[slot];
      }
      var generation := cache.generation;
      if slot !in rows {
        Remember(slot, None, generation);
        return None;
      }
      var parsed := d.parse(rows[slot]);
      if parsed.None? {
        Remember(slot, None, generation);
        return None;
      }
      Remember(slot, parsed, generation);
      return parsed;
    }

    /**
     The cached lookup. Whatever the cache holds it only ever adds entries; when the cache is
     coherent the answer is the plain one and the cache stays coherent. What was found, a value or its
     absence, is what the next lookup answers, whatever the rows become meanwhile.
     */
    method Resolve(key: Key, scopeId: Option<string>) returns (answer: Result<Resolution>)
      modifies this`cache
      ensures key !in defs ==> answer == Err(UnknownKey) && cache == old(cache)
      ensures key in defs && Coherent(old(cache), rows, defs) ==>
                answer == Ok(PlainResolve(rows, defs[key], key, scopeId)) && Coherent(cache, rows, defs)
      ensures key in defs ==> answer.Ok? && answer.value == ResolveThrough(old(cache), rows, defs[key], key, scopeId)
      ensures key in defs ==> forall later: Rows :: ResolveThrough(cache, later, defs[key], key, scopeId) == answer.value
      ensures old(cache).entries.Keys <= cache.entries.Keys && cache.generation == old(cache).generation
      ensures forall slot | slot in old(cache).entries :: cache.entries[slot] == old(cache).entries[slot]
    {
      if key !in defs {
        return Err(UnknownKey);
      }
      var d := defs[key];
      if scopeId.Some? && Provider in d.scopes {
        var scoped := ReadStored(ProviderSlot(key, scopeId.value), d);
        if scoped.Some? {
          return Ok(Resolution(scoped.value, FromProvider));
        }
      }
      var shared := ReadStored(GlobalSlot(key), d);
      if shared.Some? {
        return Ok(Resolution(shared.value, FromGlobal));
      }
      return Ok(Resolution(d.defaultValue, FromDefault));
    }

    /** A write in its own transaction; the entry is dropped after the commit, and then announced. */
    method Set(key: Key, scope: Option<Scope>, scopeId: Option<string>, value: Value) returns (announced: Result<Slot>)
      modifies this
      ensures match CheckSet(defs, key, scope, scopeId, value)
              case Err(e) => announced == Err(e) && rows == old(rows) && history == old(history) && cache == old(cache)
              case Ok((slot, parsed)) =>
                && announced == Ok(slot) && rows == old(rows)[slot := parsed] && cache == Dropped(old(cache), slot)
                && history == old(history) + [Change(slot, Before(old(rows), slot), Some(parsed))]
      ensures Coherent(old(cache), old(rows), defs) ==> Coherent(cache, rows, defs)
    {
      if key !in defs {
        return Err(UnknownKey);
      }
      var d := defs[key];
      var slot := SlotFor(key, scope, scopeId);
      if slot.scope !in d.scopes {
        return Err(InvalidScope);
      }
      if slot.scope == Provider && |slot.scopeId| == 0 {
        return Err(InvalidScope);
      }
      var parsed := d.parse(value);
      if parsed.None? {
        return Err(InvalidValue);
      }
      history := history + [Change(slot, Before(rows, slot), parsed)];
      rows := rows[slot := parsed.value];
      Invalidate(slot);
      return Ok(slot);
    }

    /** Removing nothing is not a change: nothing is dropped and nothing is announced. */
    method Unset(key: Key, scope: Option<Scope>, scopeId: Option<string>) returns (announced: Result<Option<Slot>>)
      modifies this
      ensures match CheckUnset(defs, key, scope, scopeId)
              case Err(e) => announced == Err(e) && rows == old(rows) && history == old(history) && cache == old(cache)
              case Ok(slot) =>
                && rows == old(rows) - {slot}
                && announced == Ok(if slot in old(rows) then Some(slot) else None)
                && history == old(history) + (if slot in old(rows) then [Change(slot, Before(old(rows), slot), None)] else [])
                && cache == if slot in old(rows) then Dropped(old(cache), slot) else old(cache)
      ensures Coherent(old(cache), old(rows), defs) ==> Coherent(cache, rows, defs)
    {
      if key !in defs {
        return Err(UnknownKey);
      }
      var slot := SlotFor(key, scope, scopeId);
      if slot.scope !in defs[key].scopes {
        return Err(InvalidScope);
      }
      if slot !in rows {
        assert rows - {slot} == rows;
        return Ok(None);
      }
      history := history + [Change(slot, Before(rows, slot), None)];
      rows := rows - {slot};
      Invalidate(slot);
      return Ok(Some(slot));
    }
  }

  /** The lookup chain over what the cache would answer. */
  function ResolveThrough(c: Cache, rows: Rows, d: Definition, key: Key, scopeId: Option<string>): Resolution {
    var scoped := if AsksProvider(d, scopeId) then View(c, rows, d.parse, ProviderSlot(key, scopeId.value)) else None;
    var shared := View(c, rows, d.parse, GlobalSlot(key));
    if scoped.Some? then Resolution(scoped.value, FromProvider)
    else if shared.Some? then Resolution(shared.value, FromGlobal)
    else Resolution(d.defaultValue, FromDefault)
  }

  /** Through hits and remembered misses, a coherent cache answers as the stored rows do. */
  lemma LookupRefinesPlain(c: Cache, rows: Rows, defs: Definitions, key: Key, scopeId: Option<string>)
    requires key in defs && Coherent(c, rows, defs)
    ensures ResolveThrough(c, rows, defs[key], key, scopeId) == PlainResolve(rows, defs[key], key, scopeId)
  {
  }

  /** Once its slot is invalidated a lookup reads the row as it is now; other slots are answered as before. */
  lemma DroppedIsReadAfresh(c: Cache, rows: Rows, parse: Value -> Option<Value>, slot: Slot, other: Slot)
    ensures View(Dropped(c, slot), rows, parse, slot) == Fetched(rows, parse, slot)
    ensures View(DroppedAll(c), rows, parse, other) == Fetched(rows, parse, other)
    ensures other != slot ==> View(Dropped(c, slot), rows, parse, other) == View(c, rows, parse, other)
  {
  }

  /** A row the schema no longer accepts is no row: removing it changes no lookup. */
  lemma RejectedRowsAreMisses(rows: Rows, d: Definition, key: Key, scopeId: Option<string>, bad: Slot)
    requires bad.key == key && bad in rows && d.parse(rows[bad]).None?
    ensures PlainResolve(rows, d, key, scopeId) == PlainResolve(rows - {bad}, d, key, scopeId)
  {
  }

  // --- What is written is what is read ------------------------------------------

  /** The caller has a value of its own that today's schema accepts. */
  predicate Overridden(rows: Rows, d: Definition, key: Key, scopeId: Option<string>) {
    && scopeId.Some? && Provider in d.scopes
    && var own := Slot(key, Provider, scopeId.value);
       own in rows && d.parse(rows[own]).Some?
  }

  /**
   A value set for everybody is in force for every caller but those with an accepted value of their own,
   whom it does not move.
   */
  lemma GlobalValuesAreInForce(
    rows: Rows, defs: Definitions, key: Key, scope: Option<Scope>, id: Option<string>, v: Value, caller: Option<string>)
    requires CheckSet(defs, key, scope, id, v).Ok? && scope != Some(Provider)
    requires var parsed := CheckSet(defs, key, scope, id, v).value.1; defs[key].parse(parsed) == Some(parsed)
    ensures var (slot, parsed) := CheckSet(defs, key, scope, id, v).value;
            PlainResolve(rows[slot := parsed], defs[key], key, caller)
            == if Overridden(rows, defs[key], key, caller) then PlainResolve(rows, defs[key], key, caller)
               else Resolution(parsed, FromGlobal)
    ensures Overridden(rows, defs[key], key, caller) ==>
              PlainResolve(rows, defs[key], key, caller)
              == Resolution(defs[key].parse(rows[Slot(key, Provider, caller.value)]).value, FromProvider)
  {
  }

  /** A value set for one provider is in force for it, and moves nobody else's. */
  lemma ProviderValuesAreInForce(
    rows: Rows, defs: Definitions, key: Key, id: string, v: Value, caller: Option<string>)
    requires CheckSet(defs, key, Some(Provider), Some(id), v).Ok?
    requires var parsed := CheckSet(defs, key, Some(Provider), Some(id), v).value.1; defs[key].parse(parsed) == Some(parsed)
    ensures var (slot, parsed) := CheckSet(defs, key, Some(Provider), Some(id), v).value;
            && PlainResolve(rows[slot := parsed], defs[key], key, Some(id)) == Resolution(parsed, FromProvider)
            && (caller != Some(id) ==>
                  PlainResolve(rows[slot := parsed], defs[key], key, caller) == PlainResolve(rows, defs[key], key, caller))
  {
  }

  /** Once both are reset the default is in force again, and with only the provider's reset the shared value is. */
  lemma ResetsRestoreTheChain(
    rows: Rows, defs: Definitions, key: Key, scope: Option<Scope>, any: Option<string>, id: string, caller: Option<string>)
    requires scope != Some(Provider) && CheckUnset(defs, key, scope, any).Ok? && CheckUnset(defs, key, Some(Provider), Some(id)).Ok?
    ensures var shared, own := CheckUnset(defs, key, scope, any).value, CheckUnset(defs, key, Some(Provider), Some(id)).value;
            && PlainResolve(rows - {shared} - {own}, defs[key], key, Some(id)) == Resolution(defs[key].defaultValue, FromDefault)
            && PlainResolve(rows - {shared}, defs[key], key, None) == Resolution(defs[key].defaultValue, FromDefault)
            && PlainResolve(rows - {own}, defs[key], key, Some(id)) == PlainResolve(rows, defs[key], key, None)
            && (caller != Some(id) ==> PlainResolve(rows - {own}, defs[key], key, caller) == PlainResolve(rows, defs[key], key, caller))
  {
  }
}
