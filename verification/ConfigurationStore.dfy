/**
 The configuration table and its history: what a write must satisfy, and transactions whose reads,
 row locks and commits interleave.
 */
module ConfigurationStores {
  import opened Wrappers

  type Key = nat
  /** A JSON value; what a schema makes of one is the definition's business. */
  type Value = int

  datatype Scope = Global | Provider

  const GLOBAL_SCOPE_ID := ""

  datatype Slot = Slot(key: Key, scope: Scope, scopeId: string)

  /** `parse` is the schema: a rejected value, or the value it is read as. */
  datatype Definition = Definition(scopes: set<Scope>, parse: Value -> Option<Value>, defaultValue: Value)

  type Definitions = map<Key, Definition>

  // --- What a write must satisfy --------------------------------------------

  function SlotFor(key: Key, scope: Option<Scope>, scopeId: Option<string>): Slot {
    var at := if scope.Some? then scope.value else Global;
    Slot(key, at, if at == Global then GLOBAL_SCOPE_ID else if scopeId.Some? then scopeId.value else "")
  }

  /** Unknown key, then scope, then the missing provider, then the schema; what is stored is the parsed value. */
  function CheckSet(defs: Definitions, key: Key, scope: Option<Scope>, scopeId: Option<string>, value: Value)
    : Result<(Slot, Value)>
  {
    if key !in defs then Err(UnknownKey)
    else
      var slot := SlotFor(key, scope, scopeId);
      if slot.scope !in defs[key].scopes then Err(InvalidScope)
      else if slot.scope == Provider && slot.scopeId == GLOBAL_SCOPE_ID then Err(InvalidScope)
      else
        match defs[key].parse(value)
        case None => Err(InvalidValue)
        case Some(parsed) => Ok((slot, parsed))
  }

  function CheckUnset(defs: Definitions, key: Key, scope: Option<Scope>, scopeId: Option<string>): Result<Slot> {
    if key !in defs then Err(UnknownKey)
    else
      var slot := SlotFor(key, scope, scopeId);
      if slot.scope !in defs[key].scopes then Err(InvalidScope) else Ok(slot)
  }

  /** The scope asked for, everybody's when none is, and whether the definition lets the key be set there. */
  predicate Allowed(defs: Definitions, key: Key, scope: Option<Scope>) {
    key in defs && (if scope == Some(Provider) then Provider in defs[key].scopes else Global in defs[key].scopes)
  }

  predicate IsNamed(scopeId: Option<string>) {
    scopeId.Some? && |scopeId.value| > 0
  }

  /**
   Which writes are refused and why. An accepted one lands on the slot of its scope: everybody's has no id,
   whatever id came along, and a provider's always has one, so neither can ever be taken for the other.
   */
  lemma WriteAnswers(defs: Definitions, key: Key, scope: Option<Scope>, scopeId: Option<string>, value: Value)
    ensures var checked := CheckSet(defs, key, scope, scopeId, value);
            var addressed := scope == Some(Provider) ==> IsNamed(scopeId);
            && (checked == Err(UnknownKey) <==> key !in defs)
            && (checked == Err(InvalidScope) <==> key in defs && !(Allowed(defs, key, scope) && addressed))
            && (checked == Err(InvalidValue) <==> Allowed(defs, key, scope) && addressed && defs[key].parse(value).None?)
            && (checked.Ok? <==> Allowed(defs, key, scope) && addressed && defs[key].parse(value).Some?)
            && (checked.Ok? ==>
                  && defs[key].parse(value) == Some(checked.value.1)
                  && checked.value.0 == if scope == Some(Provider) then Slot(key, Provider, scopeId.value) else Slot(key, Global, ""))
  {
  }

  /**
   A reset reaches exactly the slot a write with the same target stores at. It is not asked for a provider's
   id: without one it is accepted and addresses a slot no write ever reaches, so it removes nothing.
   */
  lemma ResetAnswers(defs: Definitions, key: Key, scope: Option<Scope>, scopeId: Option<string>, value: Value)
    ensures var reset, write := CheckUnset(defs, key, scope, scopeId), CheckSet(defs, key, scope, scopeId, value);
            && (reset == Err(UnknownKey) <==> key !in defs)
            && (reset == Err(InvalidScope) <==> key in defs && !Allowed(defs, key, scope))
            && (reset.Ok? <==> Allowed(defs, key, scope))
            && (write.Ok? ==> reset == Ok(write.value.0))
            && (scope == Some(Provider) && !IsNamed(scopeId) && reset.Ok? ==>
                  forall asked, id, v :: CheckSet(defs, key, asked, id, v).Ok? ==> CheckSet(defs, key, asked, id, v).value.0 != reset.value)
  {
    forall asked, id, v | CheckSet(defs, key, asked, id, v).Ok? {
      WriteAnswers(defs, key, asked, id, v);
    }
  }

  // --- Transactions ---------------------------------------------------------

  datatype Stored = Stored(value: Value, updatedAt: int)

  /** What the writer asserted about the row it read: nothing, or its version, `None` for an absent row. */
  datatype Precondition = Unconditional | Expecting(version: Option<int>)

  /** A committed change; `exclusive` when the row was locked before it was read. */
  datatype Entry = Entry(slot: Slot, before: Option<Value>, became: Option<Value>, precondition: Precondition, exclusive: bool)

  /** A transaction under way: what it will write, whether it locked the row, and what it read. */
  datatype Writer = Writer(slot: Slot, change: Option<Value>, precondition: Precondition, locked: bool, read: Option<Option<Value>>)

  datatype Store = Store(values: map<Slot, Stored>, history: seq<Entry>, writers: map<nat, Writer>, clock: int)

  const EMPTY_STORE := Store(map[], [], map[], 0)

  datatype Event =
    | Check(writer: nat, slot: Slot, change: Option<Value>, precondition: Precondition)
    | Read(writer: nat)
    | Commit(writer: nat)
    | Abort(writer: nat)

  function StoredValue(values: map<Slot, Stored>, slot: Slot): Option<Value> {
    if slot in values then Some(values[slot].value) else None
  }

  function Version(values: map<Slot, Stored>, slot: Slot): Option<int> {
    if slot in values then Some(values[slot].updatedAt) else None
  }

  predicate LockedByOther(s: Store, slot: Slot, writer: nat) {
    exists w | w in s.writers :: w != writer && s.writers[w].locked && s.writers[w].slot == slot
  }

  /** A lock waits for the lock's holder; so does a commit. */
  predicate Enabled(s: Store, e: Event) {
    match e
    case Check(w, slot, _, pre) => w !in s.writers && (pre.Expecting? ==> !LockedByOther(s, slot, w))
    case Read(w) => w in s.writers && s.writers[w].read == None
    case Commit(w) => w in s.writers && s.writers[w].read.Some? && !LockedByOther(s, s.writers[w].slot, w)
    case Abort(w) => w in s.writers
  }

  /** `SELECT ... FOR UPDATE` locks a row that exists and nothing otherwise; a stale version refuses. */
  function ApplyCheck(s: Store, w: nat, slot: Slot, change: Option<Value>, pre: Precondition): Store {
    if pre.Expecting? && pre.version != Version(s.values, slot) then s
    else s.(writers := s.writers[w := Writer(slot, change, pre, pre.Expecting? && slot in s.values, None)])
  }

  /** The write lands on the row as it is at the commit; the history records what was read. */
  function ApplyCommit(s: Store, w: nat): Store
    requires w in s.writers && s.writers[w].read.Some?
  {
    var x := s.writers[w];
    var done := s.(writers := s.writers - {w});
    var entry := Entry(x.slot, x.read.value, x.change, x.precondition, x.locked);
    match x.change
    case Some(v) =>
      done.(values := s.values[x.slot := Stored(v, s.clock + 1)], history := s.history + [entry], clock := s.clock + 1)
    case None =>
      if x.read.value == None || x.slot !in s.values then done
      else done.(values := s.values - {x.slot}, history := s.history + [entry], clock := s.clock + 1)
  }

  function Apply(s: Store, e: Event): Store
    requires Enabled(s, e)
  {
    match e
    case Check(w, slot, change, pre) => ApplyCheck(s, w, slot, change, pre)
    case Read(w) =>
      s.(writers := s.writers[w := s.writers[w].(read := Some(StoredValue(s.values, s.writers[w].slot)))])
    case Commit(w) => ApplyCommit(s, w)
    case Abort(w) => s.(writers := s.writers - {w})
  }

  function Next(s: Store, e: Event): Store {
    if Enabled(s, e) then Apply(s, e) else s
  }

  function Reached(es: seq<Event>): Store {
    if es == [] then EMPTY_STORE else Next(Reached(es[..|es| - 1]), es[|es| - 1])
  }

  // --- The history ----------------------------------------------------------

  /** The value the last entry for a slot left behind. */
  function LastNew(history: seq<Entry>, slot: Slot): Option<Value> {
    if history == [] then None
    else
      var last := history[|history| - 1];
      if last.slot == slot then last.became else LastNew(history[..|history| - 1], slot)
  }

  predicate Chains(history: seq<Entry>, k: nat)
    requires k < |history|
  {
    history[k].before == LastNew(history[..k], history[k].slot)
  }

  /** Locks are exclusive, and what a lock holder saw is still there. */
  ghost predicate LocksHold(s: Store) {
    && (forall v, w | v in s.writers && w in s.writers && v != w && s.writers[v].locked && s.writers[w].locked ::
          s.writers[v].slot != s.writers[w].slot)
    && (forall w | w in s.writers && s.writers[w].locked :: LockHolds(s, s.writers[w]))
    && (forall w | w in s.writers && s.writers[w].precondition.Expecting? && s.writers[w].precondition.version.Some? ::
          s.writers[w].locked)
  }

  ghost predicate LockHolds(s: Store, x: Writer) {
    && x.precondition == Expecting(Version(s.values, x.slot)) && x.slot in s.values
    && (x.read.Some? ==> x.read.value == StoredValue(s.values, x.slot))
  }

  ghost predicate Versioned(s: Store) {
    && (forall slot | slot in s.values :: s.values[slot].updatedAt <= s.clock)
    && (forall k | 0 <= k < |s.history| :: Superseded(s, s.history[k]))
  }

  /** A version a write consumed is gone for good. */
  ghost predicate Superseded(s: Store, e: Entry) {
    e.precondition.Expecting? && e.precondition.version.Some? ==>
      && e.precondition.version.value <= s.clock
      && (e.slot in s.values ==> e.precondition.version.value < s.values[e.slot].updatedAt)
  }

  ghost predicate SpentOnce(history: seq<Entry>) {
    forall i, j | 0 <= i < j < |history| :: !SameToken(history[i], history[j])
  }

  predicate SameToken(a: Entry, b: Entry) {
    a.slot == b.slot && a.precondition == b.precondition
    && a.precondition.Expecting? && a.precondition.version.Some?
  }

  ghost predicate HistoryInv(s: Store) {
    && (forall slot :: StoredValue(s.values, slot) == LastNew(s.history, slot))
    && (forall k | 0 <= k < |s.history| && s.history[k].exclusive :: Chains(s.history, k))
  }

  ghost predicate StoreInv(s: Store) {
    LocksHold(s) && Versioned(s) && SpentOnce(s.history) && HistoryInv(s)
  }

  lemma ChainsPrefix(history: seq<Entry>, e: Entry, k: nat)
    requires k < |history|
    ensures Chains(history + [e], k) <==> Chains(history, k)
  {
    assert (history + [e])[..k] == history[..k];
  }

  /** One more entry, for the value that is now stored. */
  lemma HistoryAppend(s: Store, values: map<Slot, Stored>, e: Entry, s': Store)
    requires HistoryInv(s) && s'.history == s.history + [e] && s'.values == values
    requires forall slot :: StoredValue(values, slot) == if slot == e.slot then e.became else StoredValue(s.values, slot)
    requires e.exclusive ==> e.before == StoredValue(s.values, e.slot)
    ensures HistoryInv(s')
  {
    var n := |s.history|;
    assert s'.history[..n] == s.history;
    forall slot ensures StoredValue(s'.values, slot) == LastNew(s'.history, slot) {
      assert StoredValue(s.values, slot) == LastNew(s.history, slot);
    }
    forall k | 0 <= k < |s'.history| && s'.history[k].exclusive ensures Chains(s'.history, k) {
      if k < n {
        ChainsPrefix(s.history, e, k);
      } else {
        assert StoredValue(s.values, e.slot) == LastNew(s.history, e.slot);
      }
    }
  }

  /** A commit that changes the row: it waited for every other lock, and the version moves on. */
  lemma ChangeKeeps(s: Store, w: nat)
    requires StoreInv(s) && w in s.writers && s.writers[w].read.Some? && !LockedByOther(s, s.writers[w].slot, w)
    requires s.writers[w].change.Some? || (s.writers[w].read.value.Some? && s.writers[w].slot in s.values)
    ensures StoreInv(ApplyCommit(s, w))
  {
    var x, s' := s.writers[w], ApplyCommit(s, w);
    var e := Entry(x.slot, x.read.value, x.change, x.precondition, x.locked);
    HistoryAppend(s, s'.values, e, s');
    CommitKeepsLocks(s, w);
    CommitSpends(s, w);
  }

  lemma CommitKeepsLocks(s: Store, w: nat)
    requires LocksHold(s) && w in s.writers && s.writers[w].read.Some? && !LockedByOther(s, s.writers[w].slot, w)
    ensures LocksHold(ApplyCommit(s, w))
  {
  }

  lemma CommitSpends(s: Store, w: nat)
    requires LocksHold(s) && Versioned(s) && SpentOnce(s.history)
    requires w in s.writers && s.writers[w].read.Some?
    requires s.writers[w].change.Some? || (s.writers[w].read.value.Some? && s.writers[w].slot in s.values)
    ensures Versioned(ApplyCommit(s, w)) && SpentOnce(ApplyCommit(s, w).history)
  {
  }

  lemma CheckKeeps(s: Store, e: Event)
    requires StoreInv(s) && e.Check? && Enabled(s, e)
    ensures StoreInv(Apply(s, e))
  {
  }

  lemma OtherEventKeeps(s: Store, e: Event)
    requires StoreInv(s) && (e.Read? || e.Abort?) && Enabled(s, e)
    ensures StoreInv(Apply(s, e))
  {
  }

  lemma EventKeeps(s: Store, e: Event)
    requires StoreInv(s) && Enabled(s, e)
    ensures StoreInv(Apply(s, e))
  {
    match e
    case Check(_, _, _, _) => CheckKeeps(s, e);
    case Commit(w) =>
      var x := s.writers[w];
      if x.change.Some? || (x.read.value.Some? && x.slot in s.values) {
        ChangeKeeps(s, w);
      } else {
        CommitKeepsLocks(s, w);
      }
    case _ => OtherEventKeeps(s, e);
  }

  /** A transaction that is given up leaves no trace: not in the table, not in the history, and not as a lock. */
  lemma AbortsLeaveNoTrace(s: Store, w: nat)
    requires w in s.writers
    ensures var s' := Next(s, Abort(w));
            && s'.values == s.values && s'.history == s.history && s'.writers.Keys == s.writers.Keys - {w}
            && (forall v | v in s'.writers :: s'.writers[v] == s.writers[v])
  {
  }

  lemma {:induction false} EveryRun(es: seq<Event>)
    ensures StoreInv(Reached(es))
  {
    if es != [] {
      var n := |es| - 1;
      EveryRun(es[..n]);
      if Enabled(Reached(es[..n]), es[n]) {
        EventKeeps(Reached(es[..n]), es[n]);
      }
    }
  }

  // --- What a reader can rely on --------------------------------------------

  /** However transactions interleave, the table is what the last history entry of each slot says. */
  lemma {:induction false} TableIsFoldOfHistory(es: seq<Event>, slot: Slot)
    ensures StoredValue(Reached(es).values, slot) == LastNew(Reached(es).history, slot)
  {
    EveryRun(es);
  }

  /** A change made under the row lock records exactly the value the previous entry left. */
  lemma LockedChangesChain(es: seq<Event>, k: nat)
    requires k < |Reached(es).history| && Reached(es).history[k].exclusive
    ensures Chains(Reached(es).history, k)
  {
    EveryRun(es);
  }

  /**
   An unlocked change chains exactly when no other commit changed the value between its read and
   its own commit; the value in force is right either way.
   */
  lemma CommitChainsIff(es: seq<Event>, w: nat)
    requires var s := Reached(es);
             && Enabled(s, Commit(w)) && |Apply(s, Commit(w)).history| > |s.history|
    ensures var s := Reached(es);
            var after := Apply(s, Commit(w));
            && |after.history| == |s.history| + 1
            && (Chains(after.history, |s.history|) <==> s.writers[w].read.value == StoredValue(s.values, s.writers[w].slot))
            && StoredValue(after.values, s.writers[w].slot) == s.writers[w].change
  {
    EveryRun(es);
    var s := Reached(es);
    assert Apply(s, Commit(w)).history[..|s.history|] == s.history;
  }

  /** Of all the writers holding one version of an existing row, at most one commits. */
  lemma OneCommitPerVersion(es: seq<Event>, i: nat, j: nat)
    requires i < j < |Reached(es).history|
    ensures !SameToken(Reached(es).history[i], Reached(es).history[j])
  {
    EveryRun(es);
  }

  // --- When a precondition no longer holds at the commit --------------------

  /**
   Among the first n events the m-th commits a value to the slot w is about to write, while w's
   transaction is under way, and the slot has been stored ever since.
   */
  ghost predicate OvertakenAt(es: seq<Event>, n: nat, m: nat, w: nat) {
    && m < n <= |es| && es[m].Commit? && Enabled(Reached(es[..m]), es[m])
    && (forall k | m <= k <= n :: w in Reached(es[..k]).writers)
    && var slot, x := Reached(es[..n]).writers[w].slot, Reached(es[..m]).writers[es[m].writer];
       && x.slot == slot && x.change.Some?
       && (forall k | m < k <= n :: slot in Reached(es[..k]).values)
  }

  /** A transaction under way keeps its slot and its precondition; one that begins has its precondition met. */
  lemma WriterStays(s: Store, e: Event, w: nat)
    requires Enabled(s, e) && w in Apply(s, e).writers
    ensures var x' := Apply(s, e).writers[w];
            if w in s.writers then
              x'.slot == s.writers[w].slot && x'.precondition == s.writers[w].precondition
            else
              x'.precondition.Expecting? ==> x'.precondition.version == Version(Apply(s, e).values, x'.slot)
  {
  }

  lemma OnlyCommitsStore(s: Store, e: Event, slot: Slot)
    requires Enabled(s, e) && slot !in s.values && slot in Apply(s, e).values
    ensures e.Commit? && s.writers[e.writer].slot == slot && s.writers[e.writer].change.Some?
  {
  }

  /** Absence asserted, and yet the row is there: somebody else's commit stored it meanwhile. */
  lemma {:induction false} OvertakenByACommit(es: seq<Event>, n: nat, w: nat) returns (m: nat)
    requires n <= |es|
    requires var s := Reached(es[..n]);
             w in s.writers && s.writers[w].precondition == Expecting(None) && s.writers[w].slot in s.values
    ensures OvertakenAt(es, n, m, w)
  {
    assert es[..0] == [];
    var s := Reached(es[..n - 1]);
    assert es[..n][..n - 1] == es[..n - 1];
    if Enabled(s, es[n - 1]) {
      WriterStays(s, es[n - 1], w);
    }
    var slot := Reached(es[..n]).writers[w].slot;
    if slot in s.values {
      m := OvertakenByACommit(es, n - 1, w);
    } else {
      OnlyCommitsStore(s, es[n - 1], slot);
      m := n - 1;
    }
  }

  /**
   At its commit a writer's asserted version is no longer the row's if and only if it asserted absence
   and another commit has stored the row since it checked. A version of an existing row still holds.
   */
  lemma PreconditionBrokenIff(es: seq<Event>, w: nat)
    requires Enabled(Reached(es), Commit(w)) && Reached(es).writers[w].precondition.Expecting?
    ensures var s, x := Reached(es), Reached(es).writers[w];
            x.precondition.version != Version(s.values, x.slot) <==>
              x.precondition.version == None && exists m: nat :: OvertakenAt(es, |es|, m, w)
  {
    EveryRun(es);
    var s, x := Reached(es), Reached(es).writers[w];
    assert es[..|es|] == es;
    if x.precondition.version == None && x.slot in s.values {
      var m := OvertakenByACommit(es, |es|, w);
    }
  }

  const SLOT := Slot(0, Global, GLOBAL_SCOPE_ID)
  const BOTH_FIRST := [
    Check(1, SLOT, Some(10), Expecting(None)), Check(2, SLOT, Some(20), Expecting(None)),
    Read(1), Read(2), Commit(1), Commit(2)]

  lemma AfterEvent(es: seq<Event>, k: nat, s: Store, s': Store)
    requires k < |es| && Reached(es[..k]) == s && Next(s, es[k]) == s'
    ensures Reached(es[..k + 1]) == s'
  {
    assert es[..k + 1][..k] == es[..k];
  }

  /**
   Asserting absence excludes nobody: there is no row to lock, so two first writes both commit, the
   second over a value its author never saw, and its history entry does not chain.
   */
  lemma TwoFirstWritesBothCommit()
    ensures var s := Reached(BOTH_FIRST);
            && |s.history| == 2
            && s.history[0].precondition == s.history[1].precondition == Expecting(None)
            && s.history[0].became == Some(10) && s.history[1].became == Some(20)
            && StoredValue(s.values, SLOT) == Some(20) && !Chains(s.history, 1)
  {
    var es := BOTH_FIRST;
    var fresh1 := Writer(SLOT, Some(10), Expecting(None), false, None);
    var fresh2 := Writer(SLOT, Some(20), Expecting(None), false, None);
    var read1, read2 := fresh1.(read := Some(None)), fresh2.(read := Some(None));
    AfterEvent(es, 0, EMPTY_STORE, Store(map[], [], map[1 := fresh1], 0));
    AfterEvent(es, 1, Store(map[], [], map[1 := fresh1], 0), Store(map[], [], map[1 := fresh1, 2 := fresh2], 0));
    var reading := Store(map[], [], map[1 := read1, 2 := fresh2], 0);
    AfterEvent(es, 2, Store(map[], [], map[1 := fresh1, 2 := fresh2], 0), reading);
    var both := Store(map[], [], map[1 := read1, 2 := read2], 0);
    AfterEvent(es, 3, reading, both);
    var one := ApplyCommit(both, 1);
    AfterEvent(es, 4, both, one);
    AfterEvent(es, 5, one, ApplyCommit(one, 2));
    assert es[..6] == es;
    var history := ApplyCommit(one, 2).history;
    assert history[..1][..0] == [];
    assert LastNew(history[..1], SLOT) == Some(10);
  }
}
