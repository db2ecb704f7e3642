/** One process's end of the channel: what it sends, what it could not send, and what it does with what it hears. */
module InvalidationBuses {
  import opened Wrappers
  import opened ConfigurationStores
  import opened ConfigurationCaches
  import opened InvalidationProtocols

  /** A set kept in insertion order. */
  predicate Distinct(s: seq<Domain>) {
    forall i, j | 0 <= i < j < |s| :: s[i] != s[j]
  }

  function Added(s: seq<Domain>, d: Domain): seq<Domain> {
    if d in s then s else s + [d]
  }

  /** Adding in turn what is not already there. */
  function AddedAll(s: seq<Domain>, more: seq<Domain>): seq<Domain> {
    if more == [] then s else Added(AddedAll(s, more[..|more| - 1]), more[|more| - 1])
  }

  lemma {:induction false} AddingDistinct(more: seq<Domain>)
    requires Distinct(more)
    ensures AddedAll([], more) == more
  {
    if more != [] {
      AddingDistinct(more[..|more| - 1]);
    }
  }

  function Announcement(origin: ProcessId, domains: seq<Domain>): seq<Message> {
    seq(|domains|, i requires 0 <= i < |domains| => Message(origin, domains[i], None))
  }

  class InvalidationBus {
    const instanceId: ProcessId
    const service: ConfigurationService
    var reloads: nat
    var unannounced: seq<Domain>
    var everSubscribed: bool
    var shuttingDown: bool
    /** What reached the channel, in order. */
    var sent: seq<Message>

    predicate Valid()
      reads this
    {
      Distinct(unannounced)
    }

    constructor (instanceId: ProcessId, service: ConfigurationService)
      ensures this.instanceId == instanceId && this.service == service && Valid()
      ensures unannounced == [] && sent == [] && !everSubscribed && !shuttingDown && reloads == 0
    {
      this.instanceId := instanceId;
      this.service := service;
      reloads := 0;
      unannounced := [];
      everSubscribed := false;
      shuttingDown := false;
      sent := [];
    }

    /** `connected` is whether the publisher could send. */
    method Send(domain: Domain, entry: Option<Slot>, connected: bool) returns (ok: bool)
      modifies this`sent
      ensures ok == connected
      ensures sent == old(sent) + if connected then [Message(instanceId, domain, entry)] else []
    {
      if connected {
        sent := sent + [Message(instanceId, domain, entry)];
      }
      ok := connected;
    }

    /** A message is sent, or its domain is on record as unannounced: never neither. */
    method Publish(domain: Domain, entry: Option<Slot>, connected: bool)
      requires Valid()
      modifies this`sent, this`unannounced
      ensures Valid()
      ensures connected ==> sent == old(sent) + [Message(instanceId, domain, entry)] && unannounced == old(unannounced)
      ensures !connected ==> sent == old(sent) && DomainsOf(unannounced) == DomainsOf(old(unannounced)) + {domain}
    {
      var ok := Send(domain, entry, connected);
      if ok {
        return;
      }
      unannounced := Added(unannounced, domain);
    }

    /**
     Announces every lost domain wholesale; when the connection goes again after `lasting` sends,
     the ones that did not go out are back on record.
     */
    method AnnounceMissed(lasting: nat)
      requires Valid()
      modifies this`sent, this`unannounced
      ensures Valid()
      ensures shuttingDown ==> sent == old(sent) && unannounced == old(unannounced)
      ensures !shuttingDown ==>
                var went := if lasting < |old(unannounced)| then lasting else |old(unannounced)|;
                && sent == old(sent) + Announcement(instanceId, old(unannounced)[..went])
                && unannounced == old(unannounced)[went..]
    {
      if shuttingDown || |unannounced| == 0 {
        assert unannounced[|unannounced|..] == [];
        return;
      }
      var domains := unannounced;
      unannounced := [];
      for i := 0 to |domains|
        invariant Distinct(domains) && unannounced == [] && i <= lasting
        invariant sent == old(sent) + Announcement(instanceId, domains[..i])
      {
        var ok := Send(domains[i], None, i < lasting);
        if !ok {
          PutBack(domains[i..]);
          return;
        }
        assert Announcement(instanceId, domains[..i + 1])
               == Announcement(instanceId, domains[..i]) + [Message(instanceId, domains[i], None)];
      }
      assert domains[..|domains|] == domains;
    }

    method PutBack(remaining: seq<Domain>)
      requires Valid() && Distinct(remaining)
      modifies this`unannounced
      ensures Valid() && unannounced == AddedAll(old(unannounced), remaining)
      ensures old(unannounced) == [] ==> unannounced == remaining
    {
      for i := 0 to |remaining|
        invariant Valid() && unannounced == AddedAll(old(unannounced), remaining[..i])
      {
        assert remaining[..i + 1][..i] == remaining[..i];
        unannounced := Added(unannounced, remaining[i]);
      }
      assert remaining[..|remaining|] == remaining;
      AddingDistinct(remaining);
    }

    method Dispatch(domain: Domain, entry: Option<Slot>)
      modifies this`reloads, service`cache
      ensures service.cache == if domain == Configuration
                               then (if entry.Some? then Dropped(old(service.cache), entry.value) else DroppedAll(old(service.cache)))
                               else old(service.cache)
      ensures reloads == old(reloads) + if domain == Providers then 1 else 0
    {
      if domain == Configuration {
        if entry.None? {
          service.InvalidateAll();
        } else {
          service.Invalidate(entry.value);
        }
      } else {
        reloads := reloads + 1;
      }
    }

    method DispatchEverything()
      modifies this`reloads, service`cache
      ensures service.cache == DroppedAll(old(service.cache)) && reloads == old(reloads) + 1
    {
      Dispatch(Configuration, None);
      Dispatch(Providers, None);
    }

    /** The handling step of the protocol: unreadable drops everything, an echo nothing. */
    method Receive(m: Message)
      modifies this`reloads, service`cache
      ensures service.cache == Handled(instanceId, old(service.cache), m)
      ensures reloads == old(reloads)
              + if m.Unintelligible? || (m.origin != instanceId && m.domain == Providers) then 1 else 0
    {
      if m.Unintelligible? {
        DispatchEverything();
        return;
      }
      if m.origin == instanceId {
        return;
      }
      Dispatch(m.domain, m.entry);
    }

    /** Only a reconnection resyncs; a failed subscription changes nothing. */
    method Establish(subscribed: bool)
      modifies this`reloads, this`everSubscribed, service`cache
      ensures everSubscribed == (old(everSubscribed) || (subscribed && !shuttingDown))
      ensures service.cache == if old(everSubscribed) && subscribed && !shuttingDown
                               then DroppedAll(old(service.cache)) else old(service.cache)
    {
      if shuttingDown {
        return;
      }
      var isReconnect := everSubscribed;
      if !subscribed {
        return;
      }
      everSubscribed := true;
      if isReconnect {
        DispatchEverything();
      }
    }

    /** After the commit: this process first, then everybody else. */
    method InvalidateAndBroadcast(slot: Slot, connected: bool)
      requires Valid()
      modifies this`sent, this`unannounced, service`cache
      ensures Valid() && service.cache == Dropped(old(service.cache), slot)
      ensures if connected then sent == old(sent) + [Message(instanceId, Configuration, Some(slot))]
              else sent == old(sent) && Configuration in unannounced
    {
      service.Invalidate(slot);
      Publish(Configuration, Some(slot), connected);
    }

    /** A write in its own transaction, told to everybody else once it is committed. */
    method SetAndBroadcast(key: Key, scope: Option<Scope>, scopeId: Option<string>, value: Value, connected: bool)
      returns (announced: Result<Slot>)
      requires Valid()
      modifies this`sent, this`unannounced, service
      ensures Valid()
      ensures match CheckSet(service.defs, key, scope, scopeId, value)
              case Err(e) => announced == Err(e) && service.rows == old(service.rows) && sent == old(sent)
              case Ok((slot, parsed)) =>
                && announced == Ok(slot) && service.rows == old(service.rows)[slot := parsed]
                && Told(old(sent), slot, connected)
      ensures Coherent(old(service.cache), old(service.rows), service.defs) ==> Coherent(service.cache, service.rows, service.defs)
    {
      announced := service.Set(key, scope, scopeId, value);
      if announced.Ok? {
        Publish(Configuration, Some(announced.value), connected);
      }
    }

    /** Removing nothing tells nobody. */
    method UnsetAndBroadcast(key: Key, scope: Option<Scope>, scopeId: Option<string>, connected: bool)
      returns (announced: Result<Option<Slot>>)
      requires Valid()
      modifies this`sent, this`unannounced, service
      ensures Valid()
      ensures match CheckUnset(service.defs, key, scope, scopeId)
              case Err(e) => announced == Err(e) && service.rows == old(service.rows) && sent == old(sent)
              case Ok(slot) =>
                && announced == Ok(if slot in old(service.rows) then Some(slot) else None)
                && service.rows == old(service.rows) - {slot}
                && (if slot in old(service.rows) then Told(old(sent), slot, connected) else sent == old(sent))
      ensures Coherent(old(service.cache), old(service.rows), service.defs) ==> Coherent(service.cache, service.rows, service.defs)
    {
      announced := service.Unset(key, scope, scopeId);
      if announced.Ok? && announced.value.Some? {
        Publish(Configuration, announced.value, connected);
      }
    }

    /** The message went out, or the domain is on record. */
    predicate Told(before: seq<Message>, slot: Slot, connected: bool)
      reads this
    {
      if connected then sent == before + [Message(instanceId, Configuration, Some(slot))]
      else sent == before && Configuration in unannounced
    }
  }

  /** However often the connection breaks, every domain ends up announced or still on record. */
  lemma NothingForgotten(origin: ProcessId, lost: seq<Domain>, went: nat, d: Domain)
    requires went <= |lost|
    ensures d in lost <==> Message(origin, d, None) in Announcement(origin, lost[..went]) || d in lost[went..]
  {
    if d in lost {
      var i :| 0 <= i < |lost| && lost[i] == d;
      if i < went {
        assert Announcement(origin, lost[..went])[i] == Message(origin, d, None);
      } else {
        assert lost[went..][i - went] == d;
      }
    }
  }
}
