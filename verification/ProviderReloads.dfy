/** Rebuilding the provider registry one reload at a time, whatever commits and fails in between. */
module ProviderReloads {
  import opened Wrappers
  import InvalidationProtocols
  import InvalidationBuses

  /** A call of `reload`: the database version when it was made, and how it ended. */
  datatype Call = Call(madeAt: nat, outcome: Outcome)
  datatype Outcome = Waiting | Running(read: Option<nat>) | Resolved | Rejected

  /** `registry` is the database version the snapshot describes. */
  datatype Reloads = Reloads(database: nat, registry: nat, calls: seq<Call>)

  const BOOT := Reloads(0, 0, [])

  datatype Event =
    | CommitProvider
    | CallReload
    | Begin(call: nat)
    | ReadRows(call: nat)
    | Load(call: nat)
    | Fail(call: nat)

  predicate IsOver(c: Call) {
    c.outcome.Resolved? || c.outcome.Rejected?
  }

  /** The chain: a rebuild begins once every earlier one has ended, either way. */
  predicate Enabled(s: Reloads, e: Event, chained: bool) {
    match e
    case CommitProvider => true
    case CallReload => true
    case Begin(k) =>
      k < |s.calls| && s.calls[k].outcome.Waiting? && (chained ==> forall i | 0 <= i < k :: IsOver(s.calls[i]))
    case ReadRows(k) => k < |s.calls| && s.calls[k].outcome == Running(None)
    case Load(k) => k < |s.calls| && s.calls[k].outcome.Running? && s.calls[k].outcome.read.Some?
    case Fail(k) => k < |s.calls| && s.calls[k].outcome.Running?
  }

  function To(s: Reloads, k: nat, outcome: Outcome): Reloads
    requires k < |s.calls|
  {
    s.(calls := s.calls[k := s.calls[k].(outcome := outcome)])
  }

  function Apply(s: Reloads, e: Event, chained: bool): Reloads
    requires Enabled(s, e, chained)
  {
    match e
    case CommitProvider => s.(database := s.database + 1)
    case CallReload => s.(calls := s.calls + [Call(s.database, Waiting)])
    case Begin(k) => To(s, k, Running(None))
    case ReadRows(k) => To(s, k, Running(Some(s.database)))
    case Load(k) => To(s.(registry := s.calls[k].outcome.read.value), k, Resolved)
    case Fail(k) => To(s, k, Rejected)
  }

  function Next(s: Reloads, e: Event, chained: bool): Reloads {
    if Enabled(s, e, chained) then Apply(s, e, chained) else s
  }

  function Reached(es: seq<Event>, chained: bool): Reloads {
    if es == [] then BOOT else Next(Reached(es[..|es| - 1], chained), es[|es| - 1], chained)
  }

  // --- What the chain keeps -------------------------------------------------

  ghost predicate Inv(s: Reloads) {
    && s.registry <= s.database
    && (forall k | 0 <= k < |s.calls| :: s.calls[k].madeAt <= s.database)
    && (forall k | 0 <= k < |s.calls| && s.calls[k].outcome.Resolved? :: s.calls[k].madeAt <= s.registry)
    && (forall k | 0 <= k < |s.calls| && !s.calls[k].outcome.Waiting? :: forall i | 0 <= i < k :: IsOver(s.calls[i]))
    && (forall k | 0 <= k < |s.calls| && s.calls[k].outcome.Running? && s.calls[k].outcome.read.Some? ::
          var read := s.calls[k].outcome.read.value; s.registry <= read <= s.database && s.calls[k].madeAt <= read)
  }

  lemma EventKeeps(s: Reloads, e: Event)
    requires Inv(s) && Enabled(s, e, true)
    ensures Inv(Apply(s, e, true)) && s.registry <= Apply(s, e, true).registry
  {
  }

  lemma {:induction false} EveryRun(es: seq<Event>)
    ensures Inv(Reached(es, true))
  {
    if es != [] {
      var n := |es| - 1;
      EveryRun(es[..n]);
      if Enabled(Reached(es[..n], true), es[n], true) {
        EventKeeps(Reached(es[..n], true), es[n]);
      }
    }
  }

  /** The registry never goes back to an older database state. */
  lemma {:induction false} NeverBackwards(es: seq<Event>, k: nat)
    requires k <= |es|
    ensures Reached(es[..k], true).registry <= Reached(es, true).registry
  {
    if k < |es| {
      var n := |es| - 1;
      NeverBackwards(es[..n], k);
      assert es[..n][..k] == es[..k];
      EveryRun(es[..n]);
      if Enabled(Reached(es[..n], true), es[n], true) {
        EventKeeps(Reached(es[..n], true), es[n]);
      }
    } else {
      assert es[..k] == es;
    }
  }

  /** A reload that resolved left a snapshot with every commit made before it was called. */
  lemma ResolvedIncludesEverythingBefore(es: seq<Event>, k: nat)
    requires k < |Reached(es, true).calls| && Reached(es, true).calls[k].outcome.Resolved?
    ensures Reached(es, true).calls[k].madeAt <= Reached(es, true).registry <= Reached(es, true).database
  {
    EveryRun(es);
  }

  /** A failed reload does not stop the chain: unless everything is over, some call can take its next step. */
  lemma {:induction false} TheChainMovesOn(es: seq<Event>, k: nat)
    requires k < |Reached(es, true).calls| && !IsOver(Reached(es, true).calls[k])
    ensures exists i | 0 <= i <= k ::
              Enabled(Reached(es, true), Begin(i), true) || Enabled(Reached(es, true), Fail(i), true)
    decreases k
  {
    var s := Reached(es, true);
    EveryRun(es);
    if j :| 0 <= j < k && !IsOver(s.calls[j]) {
      TheChainMovesOn(es, j);
      var i :| 0 <= i <= j && (Enabled(s, Begin(i), true) || Enabled(s, Fail(i), true));
      assert Enabled(s, Begin(i), true) || Enabled(s, Fail(i), true);
    } else {
      assert Enabled(s, Begin(k), true) || Enabled(s, Fail(k), true);
    }
  }

  const OVERLAPPING := [
    CallReload, Begin(0), ReadRows(0), CommitProvider, CallReload, Begin(1), ReadRows(1), Load(1), Load(0)]

  lemma AfterEvent(es: seq<Event>, k: nat, s: Reloads, s': Reloads)
    requires k < |es| && Reached(es[..k], false) == s && Next(s, es[k], false) == s'
    ensures Reached(es[..k + 1], false) == s'
  {
    assert es[..k + 1][..k] == es[..k];
  }

  /** Without the chain two overlapping reloads can finish in the other order, and the registry goes back. */
  lemma UnchainedGoesBackwards()
    ensures Reached(OVERLAPPING[..8], false).registry == 1 && Reached(OVERLAPPING, false).registry == 0
  {
    var es := OVERLAPPING;
    var first := Call(0, Running(Some(0)));
    AfterEvent(es, 0, BOOT, Reloads(0, 0, [Call(0, Waiting)]));
    AfterEvent(es, 1, Reloads(0, 0, [Call(0, Waiting)]), Reloads(0, 0, [Call(0, Running(None))]));
    AfterEvent(es, 2, Reloads(0, 0, [Call(0, Running(None))]), Reloads(0, 0, [first]));
    AfterEvent(es, 3, Reloads(0, 0, [first]), Reloads(1, 0, [first]));
    AfterEvent(es, 4, Reloads(1, 0, [first]), Reloads(1, 0, [first, Call(1, Waiting)]));
    AfterEvent(es, 5, Reloads(1, 0, [first, Call(1, Waiting)]), Reloads(1, 0, [first, Call(1, Running(None))]));
    AfterEvent(es, 6, Reloads(1, 0, [first, Call(1, Running(None))]), Reloads(1, 0, [first, Call(1, Running(Some(1)))]));
    AfterEvent(es, 7, Reloads(1, 0, [first, Call(1, Running(Some(1)))]), Reloads(1, 1, [first, Call(1, Resolved)]));
    AfterEvent(es, 8, Reloads(1, 1, [first, Call(1, Resolved)]), Reloads(1, 0, [Call(0, Resolved), Call(1, Resolved)]));
    assert es[..9] == es;
  }

  // --- The service ----------------------------------------------------------

  class ProvidersService {
    const bus: InvalidationBuses.InvalidationBus
    var state: Reloads

    constructor (bus: InvalidationBuses.InvalidationBus)
      ensures this.bus == bus && state == BOOT
    {
      this.bus := bus;
      state := BOOT;
    }

    /** One reload with nothing else running: queued, read, and either loaded or given up. */
    method Reload(databaseAnswers: bool) returns (ok: bool)
      requires forall i | 0 <= i < |state.calls| :: IsOver(state.calls[i])
      modifies this
      ensures ok == databaseAnswers
      ensures state.calls == old(state).calls + [Call(old(state).database, if ok then Resolved else Rejected)]
      ensures state.registry == (if ok then old(state).database else old(state).registry)
      ensures state.database == old(state).database
    {
      var k := |state.calls|;
      state := Apply(state, CallReload, true);
      state := Apply(state, Begin(k), true);
      if !databaseAnswers {
        state := Apply(state, Fail(k), true);
        return false;
      }
      state := Apply(state, ReadRows(k), true);
      state := Apply(state, Load(k), true);
      return true;
    }

    /** A rebuild that fails here also keeps the change from everybody else: nothing is sent and nothing is on record. */
    method ReloadAndBroadcast(databaseAnswers: bool, connected: bool) returns (ok: bool)
      requires bus.Valid() && forall i | 0 <= i < |state.calls| :: IsOver(state.calls[i])
      modifies this, bus`sent, bus`unannounced
      ensures ok == databaseAnswers && bus.Valid()
      ensures !ok ==> bus.sent == old(bus.sent) && bus.unannounced == old(bus.unannounced)
      ensures ok ==> state.registry == old(state).database
      ensures ok && connected ==>
                bus.sent == old(bus.sent) + [InvalidationProtocols.Message(bus.instanceId, InvalidationProtocols.Providers, None)]
      ensures ok && !connected ==> bus.sent == old(bus.sent) && InvalidationProtocols.Providers in bus.unannounced
    {
      ok := Reload(databaseAnswers);
      if !ok {
        return;
      }
      bus.Publish(InvalidationProtocols.Providers, None, connected);
    }
  }
}
