/**
 Many processes, one table, one best-effort channel: when may a process hold a value the table no
 longer has? Reads, writes, broadcasts, losses and reconnections interleave one step at a time.
 */
module InvalidationProtocols {
  import opened Wrappers
  import opened ConfigurationStores
  import opened ConfigurationCaches

  type ProcessId = nat

  datatype Domain = Configuration | Providers

  /** `entry` is absent for "everything in this domain"; an unreadable message says only that something changed. */
  datatype Message =
    | Message(origin: ProcessId, domain: Domain, entry: Option<Slot>)
    | Unintelligible

  /** The subscriber's connection: gone, back but not yet resynced, or listening. */
  datatype Link = Down | Resyncing | Live

  /** A read under way: the generation it started in, and what the query returned once it has. */
  datatype Lookup = Lookup(slot: Slot, generation: nat, found: Option<Option<Value>>)

  datatype Process = Process(
    parse: Slot -> Value -> Option<Value>,
    cache: Cache,
    inFlight: map<nat, Lookup>,
    link: Link,
    everSubscribed: bool,
    inbox: multiset<Message>,
    unannounced: set<Domain>,
    announcing: map<nat, seq<Domain>>)

  /** A write between its commit and the end of its broadcast. */
  datatype Phase = Committed | Publishing
  datatype Write = Write(process: ProcessId, slot: Slot, phase: Phase)

  datatype System = System(rows: Rows, processes: map<ProcessId, Process>, writes: map<nat, Write>)

  const NO_SYSTEM := System(map[], map[], map[])

  datatype Event =
    | Start(p: ProcessId, parse: Slot -> Value -> Option<Value>)
    | Stop(p: ProcessId)
    // Reads
    | BeginRead(p: ProcessId, read: nat, slot: Slot)
    | Query(p: ProcessId, read: nat)
    | WriteBack(p: ProcessId, read: nat)
    // Writes
    | Commit(p: ProcessId, write: nat, slot: Slot, change: Option<Value>)
    | DropLocally(write: nat)
    | Publish(write: nat, sent: bool)
    // Recovery of the publisher
    | BeginAnnouncing(p: ProcessId, announcer: nat, domains: seq<Domain>)
    | Announce(p: ProcessId, announcer: nat, sent: bool)
    // The subscriber
    | Receive(p: ProcessId, message: Message)
    | Disconnect(p: ProcessId)
    | Subscribe(p: ProcessId)
    | Resync(p: ProcessId)
    | Noise(p: ProcessId, message: Message)

  // --- Steps ----------------------------------------------------------------

  function FoundBy(x: Process, rows: Rows, slot: Slot): Option<Value> {
    if slot in rows then x.parse(slot)(rows[slot]) else None
  }

  /** What a connected subscriber's process does with a message: its own echo is ignored. */
  function Handled(p: ProcessId, c: Cache, m: Message): Cache {
    match m
    case Unintelligible => DroppedAll(c)
    case Message(origin, domain, entry) =>
      if origin == p || domain != Configuration then c
      else if entry.Some? then Dropped(c, entry.value)
      else DroppedAll(c)
  }

  function Delivered(x: Process, m: Message): Process {
    if x.link == Down then x else x.(inbox := x.inbox + multiset{m})
  }

  /** Everyone connected gets the message, the sender included. */
  function Broadcast(processes: map<ProcessId, Process>, m: Message): map<ProcessId, Process> {
    map p | p in processes :: Delivered(processes[p], m)
  }

  function DomainsOf(s: seq<Domain>): set<Domain> {
    set d | d in s
  }

  predicate Quiet(x: Process) {
    x.unannounced == {} && x.announcing == map[]
  }

  /** Nothing cached and no query answered: what a process that has not served anyone yet looks like. */
  predicate Unread(x: Process) {
    x.cache.entries == map[] && forall r | r in x.inFlight :: x.inFlight[r].found == None
  }

  /**
   The assumptions of the design: a process stops only with no broadcast pending, and subscribes for
   the first time before it has cached anything.
   */
  predicate Enabled(s: System, e: Event) {
    match e
    case Start(p, _) => p !in s.processes
    case Stop(p) => p in s.processes && Quiet(s.processes[p]) && forall w | w in s.writes :: s.writes[w].process != p
    case BeginRead(p, r, slot) =>
      p in s.processes && r !in s.processes[p].inFlight && slot !in s.processes[p].cache.entries
    case Query(p, r) => p in s.processes && r in s.processes[p].inFlight && s.processes[p].inFlight[r].found == None
    case WriteBack(p, r) => p in s.processes && r in s.processes[p].inFlight && s.processes[p].inFlight[r].found.Some?
    case Commit(p, w, _, _) => p in s.processes && w !in s.writes
    case DropLocally(w) => w in s.writes && s.writes[w].phase == Committed && s.writes[w].process in s.processes
    case Publish(w, _) => w in s.writes && s.writes[w].phase == Publishing && s.writes[w].process in s.processes
    case BeginAnnouncing(p, a, domains) =>
      && p in s.processes && a !in s.processes[p].announcing
      && domains != [] && DomainsOf(domains) == s.processes[p].unannounced
    case Announce(p, a, _) =>
      p in s.processes && a in s.processes[p].announcing && s.processes[p].announcing[a] != []
    case Receive(p, m) => p in s.processes && m in s.processes[p].inbox
    case Disconnect(p) => p in s.processes
    case Subscribe(p) =>
      p in s.processes && s.processes[p].link == Down && (!s.processes[p].everSubscribed ==> Unread(s.processes[p]))
    case Resync(p) => p in s.processes && s.processes[p].link == Resyncing
    case Noise(p, _) => p in s.processes
  }

  function With(s: System, p: ProcessId, x: Process): System {
    s.(processes := s.processes[p := x])
  }

  function ApplyWriteBack(x: Process, r: nat): Process
    requires r in x.inFlight && x.inFlight[r].found.Some?
  {
    var read := x.inFlight[r];
    x.(cache := Remembered(x.cache, read.slot, read.found.value, read.generation), inFlight := x.inFlight - {r})
  }

  function ApplyPublish(s: System, w: nat, sent: bool): System
    requires w in s.writes && s.writes[w].process in s.processes
  {
    var p := s.writes[w].process;
    var done := s.(writes := s.writes - {w});
    if sent then done.(processes := Broadcast(s.processes, Message(p, Configuration, Some(s.writes[w].slot))))
    else
      var x := s.processes[p];
      With(done, p, x.(unannounced := x.unannounced + {Configuration}))
  }

  /** One domain goes out, or the remaining ones are put back and the recovery stops. */
  function ApplyAnnounce(s: System, p: ProcessId, a: nat, sent: bool): System
    requires p in s.processes && a in s.processes[p].announcing && s.processes[p].announcing[a] != []
  {
    var x := s.processes[p];
    var todo := x.announcing[a];
    if sent then
      var y := x.(announcing := if |todo| == 1 then x.announcing - {a} else x.announcing[a := todo[1..]]);
      s.(processes := Broadcast(s.processes[p := y], Message(p, todo[0], None)))
    else With(s, p, x.(announcing := x.announcing - {a}, unannounced := x.unannounced + DomainsOf(todo)))
  }

  function ApplySubscribe(x: Process): Process {
    x.(everSubscribed := true, link := if x.everSubscribed then Resyncing else Live)
  }

  function Apply(s: System, e: Event): System
    requires Enabled(s, e)
  {
    match e
    case Start(p, parse) => With(s, p, Process(parse, EMPTY_CACHE, map[], Down, false, multiset{}, {}, map[]))
    case Stop(p) => s.(processes := s.processes - {p})
    case BeginRead(p, r, slot) =>
      var x := s.processes[p];
      With(s, p, x.(inFlight := x.inFlight[r := Lookup(slot, x.cache.generation, None)]))
    case Query(p, r) =>
      var x := s.processes[p];
      With(s, p, x.(inFlight := x.inFlight[r := x.inFlight[r].(found := Some(FoundBy(x, s.rows, x.inFlight[r].slot)))]))
    case WriteBack(p, r) => With(s, p, ApplyWriteBack(s.processes[p], r))
    case Commit(p, w, slot, change) =>
      s.(rows := if change.Some? then s.rows[slot := change.value] else s.rows - {slot},
         writes := s.writes[w := Write(p, slot, Committed)])
    case DropLocally(w) =>
      var x := s.processes[s.writes[w].process];
      With(s, s.writes[w].process, x.(cache := Dropped(x.cache, s.writes[w].slot)))
        .(writes := s.writes[w := s.writes[w].(phase := Publishing)])
    case Publish(w, sent) => ApplyPublish(s, w, sent)
    case BeginAnnouncing(p, a, domains) =>
      var x := s.processes[p];
      With(s, p, x.(unannounced := {}, announcing := x.announcing[a := domains]))
    case Announce(p, a, sent) => ApplyAnnounce(s, p, a, sent)
    case Receive(p, m) =>
      var x := s.processes[p];
      With(s, p, x.(inbox := x.inbox - multiset{m}, cache := Handled(p, x.cache, m)))
    case Disconnect(p) => With(s, p, s.processes[p].(link := Down, inbox := multiset{}))
    case Subscribe(p) => With(s, p, ApplySubscribe(s.processes[p]))
    case Resync(p) =>
      var x := s.processes[p];
      With(s, p, x.(link := Live, cache := DroppedAll(x.cache)))
    case Noise(p, m) => With(s, p, Delivered(s.processes[p], m))
  }

  function Next(s: System, e: Event): System {
    if Enabled(s, e) then Apply(s, e) else s
  }

  function Reached(es: seq<Event>): System {
    if es == [] then NO_SYSTEM else Next(Reached(es[..|es| - 1]), es[|es| - 1])
  }

  // --- Staleness and what is owed -------------------------------------------

  /** An answered query that the generation still allows to be cached. */
  predicate CouldCache(x: Process, r: nat, slot: Slot) {
    r in x.inFlight && x.inFlight[r].slot == slot && x.inFlight[r].found.Some? && x.inFlight[r].generation == x.cache.generation
  }

  /** The process caches, or could still cache, something a fresh read would not find. */
  predicate Stale(x: Process, rows: Rows, slot: Slot) {
    || (slot in x.cache.entries && x.cache.entries[slot] != FoundBy(x, rows, slot))
    || (exists r | r in x.inFlight :: CouldCache(x, r, slot) && x.inFlight[r].found.value != FoundBy(x, rows, slot))
  }

  predicate Covers(p: ProcessId, m: Message, slot: Slot) {
    m.Unintelligible?
    || (m.origin != p && m.domain == Configuration && (m.entry == None || m.entry == Some(slot)))
  }

  /** A write on this slot still has to drop the entry here, or to send the message that does. */
  predicate WriteOwes(writes: map<nat, Write>, p: ProcessId, slot: Slot) {
    exists w | w in writes :: writes[w].slot == slot && (writes[w].phase == Committed || writes[w].process != p)
  }

  /** The process was away, is not resynced yet, or has the message waiting. */
  predicate ChannelOwes(x: Process, p: ProcessId, slot: Slot) {
    x.link != Live || exists m | m in x.inbox :: Covers(p, m, slot)
  }

  predicate HasUnsaid(x: Process) {
    Configuration in x.unannounced
    || exists a | a in x.announcing :: Configuration in x.announcing[a]
  }

  /** Some other process lost a broadcast and has not announced it since. */
  predicate RecoveryOwes(processes: map<ProcessId, Process>, p: ProcessId) {
    exists q | q in processes :: q != p && HasUnsaid(processes[q])
  }

  predicate Owed(s: System, p: ProcessId, slot: Slot)
    requires p in s.processes
  {
    WriteOwes(s.writes, p, slot) || ChannelOwes(s.processes[p], p, slot) || RecoveryOwes(s.processes, p)
  }

  predicate ReadsAreOld(x: Process) {
    forall r | r in x.inFlight :: x.inFlight[r].generation <= x.cache.generation
  }

  ghost predicate StalenessIsOwed(s: System, p: ProcessId)
    requires p in s.processes
  {
    forall slot | Stale(s.processes[p], s.rows, slot) :: Owed(s, p, slot)
  }

  ghost predicate Inv(s: System) {
    && (forall p | p in s.processes :: ReadsAreOld(s.processes[p]))
    && (forall p | p in s.processes :: StalenessIsOwed(s, p))
    && (forall w | w in s.writes :: s.writes[w].process in s.processes)
    && (forall p | p in s.processes && !s.processes[p].everSubscribed :: s.processes[p].link == Down)
  }

  // --- Every step keeps it --------------------------------------------------

  lemma RecoveryMoves(processes: map<ProcessId, Process>, processes': map<ProcessId, Process>, p: ProcessId)
    requires RecoveryOwes(processes, p)
    requires forall q | q in processes && HasUnsaid(processes[q]) :: q in processes' && HasUnsaid(processes'[q])
    ensures RecoveryOwes(processes', p)
  {
  }

  /** What a step of one process alone must respect. */
  ghost predicate OwnStep(rows: Rows, p: ProcessId, x: Process, x': Process) {
    && ReadsAreOld(x') && (!x'.everSubscribed ==> x'.link == Down)
    && (HasUnsaid(x) ==> HasUnsaid(x'))
    && (forall slot | Stale(x', rows, slot) ::
          ChannelOwes(x', p, slot) || (Stale(x, rows, slot) && !ChannelOwes(x, p, slot)))
  }

  lemma OwnStepKeeps(s: System, p: ProcessId, x: Process)
    requires Inv(s) && p in s.processes && OwnStep(s.rows, p, s.processes[p], x)
    ensures Inv(With(s, p, x))
  {
    var s' := With(s, p, x);
    forall q | q in s'.processes ensures StalenessIsOwed(s', q) {
      forall slot | Stale(s'.processes[q], s'.rows, slot) ensures Owed(s', q, slot) {
        if q != p || !ChannelOwes(x, p, slot) {
          assert Stale(s.processes[q], s.rows, slot);
          assert Owed(s, q, slot);
          if RecoveryOwes(s.processes, q) {
            RecoveryMoves(s.processes, s'.processes, q);
          }
        }
      }
    }
  }

  lemma UnsaidBroadcast(processes: map<ProcessId, Process>, m: Message, q: ProcessId)
    requires q in processes
    ensures HasUnsaid(Broadcast(processes, m)[q]) == HasUnsaid(processes[q])
    ensures Broadcast(processes, m)[q].link == processes[q].link
  {
  }

  lemma HeardBroadcast(processes: map<ProcessId, Process>, m: Message, q: ProcessId, rows: Rows, slot: Slot)
    requires q in processes
    ensures var x, x' := processes[q], Broadcast(processes, m)[q];
            && (Stale(x', rows, slot) <==> Stale(x, rows, slot))
            && (ChannelOwes(x, q, slot) || Covers(q, m, slot) ==> ChannelOwes(x', q, slot))
  {
  }

  lemma StartKeeps(s: System, e: Event)
    requires Inv(s) && e.Start? && Enabled(s, e)
    ensures Inv(Apply(s, e))
  {
    var s' := Apply(s, e);
    forall q | q in s'.processes ensures StalenessIsOwed(s', q) {
      forall slot | Stale(s'.processes[q], s'.rows, slot) ensures Owed(s', q, slot) {
        assert Stale(s.processes[q], s.rows, slot);
        assert Owed(s, q, slot);
        if RecoveryOwes(s.processes, q) {
          RecoveryMoves(s.processes, s'.processes, q);
        }
      }
    }
  }

  lemma StopKeeps(s: System, e: Event)
    requires Inv(s) && e.Stop? && Enabled(s, e)
    ensures Inv(Apply(s, e))
  {
    var s' := Apply(s, e);
    assert !HasUnsaid(s.processes[e.p]);
    forall q | q in s'.processes ensures StalenessIsOwed(s', q) {
      forall slot | Stale(s'.processes[q], s'.rows, slot) ensures Owed(s', q, slot) {
        assert Stale(s.processes[q], s.rows, slot);
        assert Owed(s, q, slot);
        if RecoveryOwes(s.processes, q) {
          RecoveryMoves(s.processes, s'.processes, q);
        }
      }
    }
  }

  lemma ReadKeeps(s: System, e: Event)
    requires Inv(s) && (e.BeginRead? || e.Query? || e.WriteBack?) && Enabled(s, e)
    ensures Inv(Apply(s, e))
  {
    var x := s.processes[e.p];
    assert ReadsAreOld(x);
    match e
    case BeginRead(p, r, slot) =>
      var x' := x.(inFlight := x.inFlight[r := Lookup(slot, x.cache.generation, None)]);
      OwnStepKeeps(s, p, x');
    case Query(p, r) =>
      var x' := x.(inFlight := x.inFlight[r := x.inFlight[r].(found := Some(FoundBy(x, s.rows, x.inFlight[r].slot)))]);
      OwnStepKeeps(s, p, x');
    case WriteBack(p, r) =>
      WriteBackStep(s.rows, p, x, r);
      OwnStepKeeps(s, p, ApplyWriteBack(x, r));
  }

  /** Only what the read already could do is done. */
  lemma WriteBackStep(rows: Rows, p: ProcessId, x: Process, r: nat)
    requires ReadsAreOld(x) && (!x.everSubscribed ==> x.link == Down)
    requires r in x.inFlight && x.inFlight[r].found.Some?
    ensures forall slot | Stale(ApplyWriteBack(x, r), rows, slot) :: Stale(x, rows, slot)
  {
  }

  lemma CommitKeeps(s: System, e: Event)
    requires Inv(s) && e.Commit? && Enabled(s, e)
    ensures Inv(Apply(s, e))
  {
    var s' := Apply(s, e);
    forall q | q in s'.processes ensures StalenessIsOwed(s', q) {
      forall slot | Stale(s'.processes[q], s'.rows, slot) ensures Owed(s', q, slot) {
        if slot == e.slot {
          assert s'.writes[e.write].slot == slot;
        } else {
          assert Stale(s.processes[q], s.rows, slot);
          assert Owed(s, q, slot);
          if WriteOwes(s.writes, q, slot) {
            var w :| w in s.writes && s.writes[w].slot == slot && (s.writes[w].phase == Committed || s.writes[w].process != q);
            assert s'.writes[w] == s.writes[w];
          }
        }
      }
    }
  }

  /** Dropping an entry fences every read under way. */
  lemma NothingStaleAfterDrop(x: Process, rows: Rows, dropped: Slot, slot: Slot)
    requires ReadsAreOld(x)
    ensures Stale(x.(cache := Dropped(x.cache, dropped)), rows, slot) ==> slot != dropped && Stale(x, rows, slot)
    ensures !Stale(x.(cache := DroppedAll(x.cache)), rows, slot)
  {
  }

  /** A write that has dropped its own entry still owes everybody else the message. */
  lemma PublishingStillOwes(writes: map<nat, Write>, w: nat, q: ProcessId, slot: Slot)
    requires w in writes && WriteOwes(writes, q, slot)
    requires q != writes[w].process || slot != writes[w].slot
    ensures WriteOwes(writes[w := writes[w].(phase := Publishing)], q, slot)
  {
    var writes' := writes[w := writes[w].(phase := Publishing)];
    var v :| v in writes && writes[v].slot == slot && (writes[v].phase == Committed || writes[v].process != q);
    assert writes'[v].slot == slot && writes'[v].process == writes[v].process;
  }

  lemma DropLocallyKeeps(s: System, e: Event)
    requires Inv(s) && e.DropLocally? && Enabled(s, e)
    ensures Inv(Apply(s, e))
  {
    var s', p, dropped := Apply(s, e), s.writes[e.write].process, s.writes[e.write].slot;
    assert ReadsAreOld(s.processes[p]);
    forall q | q in s'.processes ensures StalenessIsOwed(s', q) {
      forall slot | Stale(s'.processes[q], s'.rows, slot) ensures Owed(s', q, slot) {
        if q == p {
          NothingStaleAfterDrop(s.processes[p], s.rows, dropped, slot);
        }
        assert Owed(s, q, slot);
        if WriteOwes(s.writes, q, slot) {
          PublishingStillOwes(s.writes, e.write, q, slot);
        }
        if RecoveryOwes(s.processes, q) {
          RecoveryMoves(s.processes, s'.processes, q);
        }
      }
    }
  }

  /** Everybody connected hears it; nobody owes less for that. */
  lemma BroadcastKeeps(s: System, m: Message)
    requires Inv(s)
    ensures Inv(s.(processes := Broadcast(s.processes, m)))
  {
    var s' := s.(processes := Broadcast(s.processes, m));
    forall q | q in s.processes && HasUnsaid(s.processes[q]) ensures q in s'.processes && HasUnsaid(s'.processes[q]) {
      UnsaidBroadcast(s.processes, m, q);
    }
    forall q | q in s'.processes ensures StalenessIsOwed(s', q) && ReadsAreOld(s'.processes[q]) {
      assert ReadsAreOld(s.processes[q]);
      forall slot | Stale(s'.processes[q], s'.rows, slot) ensures Owed(s', q, slot) {
        HeardBroadcast(s.processes, m, q, s.rows, slot);
        assert Owed(s, q, slot);
        if RecoveryOwes(s.processes, q) {
          RecoveryMoves(s.processes, s'.processes, q);
        }
      }
    }
  }

  predicate Reaches(s: System, q: ProcessId, slot: Slot)
    requires q in s.processes
  {
    ChannelOwes(s.processes[q], q, slot) || RecoveryOwes(s.processes, q)
  }

  /** A broadcast is over once everyone else has the message coming, or its loss on record. */
  lemma WriteDone(s: System, w: nat)
    requires Inv(s) && w in s.writes && s.writes[w].phase == Publishing
    requires forall q | q in s.processes && q != s.writes[w].process :: Reaches(s, q, s.writes[w].slot)
    ensures Inv(s.(writes := s.writes - {w}))
  {
    var s' := s.(writes := s.writes - {w});
    forall q | q in s'.processes ensures StalenessIsOwed(s', q) {
      forall slot | Stale(s'.processes[q], s'.rows, slot) ensures Owed(s', q, slot) {
        assert Owed(s, q, slot);
        if WriteOwes(s.writes, q, slot) {
          var v :| v in s.writes && s.writes[v].slot == slot && (s.writes[v].phase == Committed || s.writes[v].process != q);
          if v == w {
            assert Reaches(s, q, slot);
          } else {
            assert s'.writes[v] == s.writes[v];
          }
        }
      }
    }
  }

  lemma PublishKeeps(s: System, e: Event)
    requires Inv(s) && e.Publish? && Enabled(s, e)
    ensures Inv(Apply(s, e))
  {
    var w, p, x := e.write, s.writes[e.write].process, s.processes[s.writes[e.write].process];
    if e.sent {
      var m := Message(p, Configuration, Some(s.writes[w].slot));
      var heard := s.(processes := Broadcast(s.processes, m));
      BroadcastKeeps(s, m);
      forall q | q in heard.processes && q != p ensures Reaches(heard, q, s.writes[w].slot) {
        HeardBroadcast(s.processes, m, q, s.rows, s.writes[w].slot);
      }
      WriteDone(heard, w);
    } else {
      var x' := x.(unannounced := x.unannounced + {Configuration});
      OwnStepKeeps(s, p, x');
      var lost := With(s, p, x');
      forall q | q in lost.processes && q != p ensures Reaches(lost, q, s.writes[w].slot) {
        assert HasUnsaid(lost.processes[p]);
      }
      WriteDone(lost, w);
    }
  }

  lemma BeginAnnouncingKeeps(s: System, e: Event)
    requires Inv(s) && e.BeginAnnouncing? && Enabled(s, e)
    ensures Inv(Apply(s, e))
  {
    var x := s.processes[e.p];
    var x' := x.(unannounced := {}, announcing := x.announcing[e.announcer := e.domains]);
    assert x'.announcing[e.announcer] == e.domains;
    if Configuration in x.unannounced {
      assert Configuration in DomainsOf(e.domains);
    } else if HasUnsaid(x) {
      var a :| a in x.announcing && Configuration in x.announcing[a];
      assert x'.announcing[a] == x.announcing[a];
    }
    OwnStepKeeps(s, e.p, x');
  }

  /** Nothing is left unsaid to anyone who has it coming. */
  lemma Announced(s: System, p: ProcessId, x: Process)
    requires Inv(s) && p in s.processes
    requires x == s.processes[p].(announcing := x.announcing)
    requires (HasUnsaid(s.processes[p]) ==> HasUnsaid(x))
             || forall q, slot | q in s.processes && q != p :: ChannelOwes(s.processes[q], q, slot)
    ensures Inv(With(s, p, x))
  {
    assert ReadsAreOld(s.processes[p]);
    if HasUnsaid(s.processes[p]) ==> HasUnsaid(x) {
      OwnStepKeeps(s, p, x);
    } else {
      var s' := With(s, p, x);
      forall q | q in s'.processes ensures StalenessIsOwed(s', q) {
        forall slot | Stale(s'.processes[q], s'.rows, slot) ensures Owed(s', q, slot) {
          assert Stale(s.processes[q], s.rows, slot);
          assert Owed(s, q, slot);
          if q == p && RecoveryOwes(s.processes, q) {
            var o :| o in s.processes && o != q && HasUnsaid(s.processes[o]);
            assert HasUnsaid(s'.processes[o]);
          }
        }
      }
    }
  }

  function Rest(x: Process, a: nat): map<nat, seq<Domain>>
    requires a in x.announcing && x.announcing[a] != []
  {
    if |x.announcing[a]| == 1 then x.announcing - {a} else x.announcing[a := x.announcing[a][1..]]
  }

  /** After the message is out, either everyone else has it coming or the domain is still to be announced. */
  lemma AnnouncedOrComing(s: System, heard: System, p: ProcessId, a: nat)
    requires p in s.processes && a in s.processes[p].announcing && s.processes[p].announcing[a] != []
    requires heard == s.(processes := Broadcast(s.processes, Message(p, s.processes[p].announcing[a][0], None)))
    ensures var x' := heard.processes[p].(announcing := Rest(s.processes[p], a));
            (HasUnsaid(heard.processes[p]) ==> HasUnsaid(x'))
            || forall q, slot | q in heard.processes && q != p :: ChannelOwes(heard.processes[q], q, slot)
  {
    var m := Message(p, s.processes[p].announcing[a][0], None);
    if m.domain == Configuration {
      forall q, slot | q in heard.processes && q != p ensures ChannelOwes(heard.processes[q], q, slot) {
        HeardBroadcast(s.processes, m, q, s.rows, slot);
      }
    } else if HasUnsaid(heard.processes[p]) {
      RestStillUnsaid(heard.processes[p], Rest(s.processes[p], a), a);
    }
  }

  lemma AnnounceSentKeeps(s: System, p: ProcessId, a: nat)
    requires Inv(s) && Enabled(s, Announce(p, a, true))
    ensures Inv(ApplyAnnounce(s, p, a, true))
  {
    var m := Message(p, s.processes[p].announcing[a][0], None);
    var heard := s.(processes := Broadcast(s.processes, m));
    BroadcastKeeps(s, m);
    AnnouncedOrComing(s, heard, p, a);
    Announced(heard, p, heard.processes[p].(announcing := Rest(s.processes[p], a)));
    SendingThenTrimming(s, heard, p, a);
  }

  /** Trimming the list and sending is sending and then trimming the list. */
  lemma SendingThenTrimming(s: System, heard: System, p: ProcessId, a: nat)
    requires p in s.processes && a in s.processes[p].announcing && s.processes[p].announcing[a] != []
    requires heard == s.(processes := Broadcast(s.processes, Message(p, s.processes[p].announcing[a][0], None)))
    ensures ApplyAnnounce(s, p, a, true) == With(heard, p, heard.processes[p].(announcing := Rest(s.processes[p], a)))
  {
  }

  lemma RestStillUnsaid(x: Process, rest: map<nat, seq<Domain>>, a: nat)
    requires a in x.announcing && x.announcing[a] != [] && x.announcing[a][0] != Configuration && HasUnsaid(x)
    requires rest == if |x.announcing[a]| == 1 then x.announcing - {a} else x.announcing[a := x.announcing[a][1..]]
    ensures HasUnsaid(x.(announcing := rest))
  {
    if Configuration !in x.unannounced {
      var b :| b in x.announcing && Configuration in x.announcing[b];
      if b == a {
        var todo := x.announcing[a];
        assert todo == [todo[0]] + todo[1..];
        assert rest[a] == todo[1..];
      } else {
        assert rest[b] == x.announcing[b];
      }
    }
  }

  lemma AnnounceLostKeeps(s: System, p: ProcessId, a: nat)
    requires Inv(s) && Enabled(s, Announce(p, a, false))
    ensures Inv(ApplyAnnounce(s, p, a, false))
  {
    var x := s.processes[p];
    var x' := x.(announcing := x.announcing - {a}, unannounced := x.unannounced + DomainsOf(x.announcing[a]));
    if HasUnsaid(x) && Configuration !in x'.unannounced {
      var b :| b in x.announcing && Configuration in x.announcing[b];
      assert b != a && x'.announcing[b] == x.announcing[b];
    }
    assert ReadsAreOld(x);
    OwnStepKeeps(s, p, x');
  }

  // --- The subscriber -------------------------------------------------------

  lemma ReceiveKeeps(s: System, e: Event)
    requires Inv(s) && e.Receive? && Enabled(s, e)
    ensures Inv(Apply(s, e))
  {
    var p, m, x := e.p, e.message, s.processes[e.p];
    var x' := x.(inbox := x.inbox - multiset{m}, cache := Handled(p, x.cache, m));
    assert ReadsAreOld(x);
    forall slot | Stale(x', s.rows, slot)
      ensures ChannelOwes(x', p, slot) || (Stale(x, s.rows, slot) && !ChannelOwes(x, p, slot))
    {
      ReceiveStep(x, p, m, s.rows, slot);
    }
    OwnStepKeeps(s, p, x');
  }

  /** A handled message has done all it could for its slot; the others are still waiting. */
  lemma ReceiveStep(x: Process, p: ProcessId, m: Message, rows: Rows, slot: Slot)
    requires ReadsAreOld(x) && m in x.inbox
    requires Stale(x.(inbox := x.inbox - multiset{m}, cache := Handled(p, x.cache, m)), rows, slot)
    ensures Stale(x, rows, slot)
    ensures ChannelOwes(x, p, slot) ==> ChannelOwes(x.(inbox := x.inbox - multiset{m}, cache := Handled(p, x.cache, m)), p, slot)
  {
  }

  lemma LinkKeeps(s: System, e: Event)
    requires Inv(s) && (e.Disconnect? || e.Subscribe? || e.Resync?) && Enabled(s, e)
    ensures Inv(Apply(s, e))
  {
    var x := s.processes[e.p];
    assert ReadsAreOld(x);
    match e
    case Disconnect(p) => OwnStepKeeps(s, p, x.(link := Down, inbox := multiset{}));
    case Subscribe(p) => OwnStepKeeps(s, p, ApplySubscribe(x));
    case Resync(p) =>
      var x' := x.(link := Live, cache := DroppedAll(x.cache));
      forall slot ensures !Stale(x', s.rows, slot) {
        NothingStaleAfterDrop(x, s.rows, slot, slot);
      }
      OwnStepKeeps(s, p, x');
  }

  lemma NoiseKeeps(s: System, e: Event)
    requires Inv(s) && e.Noise? && Enabled(s, e)
    ensures Inv(Apply(s, e))
  {
    var p, x, x' := e.p, s.processes[e.p], Delivered(s.processes[e.p], e.message);
    assert ReadsAreOld(x);
    forall slot | Stale(x', s.rows, slot)
      ensures ChannelOwes(x', p, slot) || (Stale(x, s.rows, slot) && !ChannelOwes(x, p, slot))
    {
      if exists n | n in x.inbox :: Covers(p, n, slot) {
        var n :| n in x.inbox && Covers(p, n, slot);
        assert n in x'.inbox;
      }
    }
    OwnStepKeeps(s, p, x');
  }

  lemma EventKeeps(s: System, e: Event)
    requires Inv(s) && Enabled(s, e)
    ensures Inv(Apply(s, e))
  {
    match e
    case Start(_, _) => StartKeeps(s, e);
    case Stop(_) => StopKeeps(s, e);
    case BeginRead(_, _, _) => ReadKeeps(s, e);
    case Query(_, _) => ReadKeeps(s, e);
    case WriteBack(_, _) => ReadKeeps(s, e);
    case Commit(_, _, _, _) => CommitKeeps(s, e);
    case DropLocally(_) => DropLocallyKeeps(s, e);
    case Publish(_, _) => PublishKeeps(s, e);
    case BeginAnnouncing(_, _, _) => BeginAnnouncingKeeps(s, e);
    case Announce(p, a, sent) =>
      if sent {
        AnnounceSentKeeps(s, p, a);
      } else {
        AnnounceLostKeeps(s, p, a);
      }
    case Receive(_, _) => ReceiveKeeps(s, e);
    case Disconnect(_) => LinkKeeps(s, e);
    case Subscribe(_) => LinkKeeps(s, e);
    case Resync(_) => LinkKeeps(s, e);
    case Noise(_, _) => NoiseKeeps(s, e);
  }

  lemma {:induction false} EveryRun(es: seq<Event>)
    ensures Inv(Reached(es))
  {
    if es != [] {
      var n := |es| - 1;
      EveryRun(es[..n]);
      if Enabled(Reached(es[..n]), es[n]) {
        EventKeeps(Reached(es[..n]), es[n]);
      }
    }
  }

  // --- What a reader can rely on --------------------------------------------

  /**
   Whenever a process holds a stale value, or has a read under way that could still cache one, an
   invalidation is owed to it.
   */
  lemma StaleMeansOwed(es: seq<Event>, p: ProcessId, slot: Slot)
    requires p in Reached(es).processes && Stale(Reached(es).processes[p], Reached(es).rows, slot)
    ensures Owed(Reached(es), p, slot)
  {
    EveryRun(es);
    assert StalenessIsOwed(Reached(es), p);
  }

  /** No write under way, every subscriber listening with nothing waiting, nothing lost unannounced. */
  predicate Settled(s: System) {
    && s.writes == map[]
    && forall p | p in s.processes ::
         s.processes[p].link == Live && s.processes[p].inbox == multiset{} && Quiet(s.processes[p])
  }

  /** Once everything owed has been delivered, every cache of every process agrees with the table. */
  lemma SettledMeansCoherent(es: seq<Event>, p: ProcessId, slot: Slot)
    requires Settled(Reached(es)) && p in Reached(es).processes
    ensures var x := Reached(es).processes[p];
            && (slot in x.cache.entries ==> x.cache.entries[slot] == FoundBy(x, Reached(es).rows, slot))
            && !Stale(x, Reached(es).rows, slot)
  {
    var s := Reached(es);
    if Stale(s.processes[p], s.rows, slot) {
      StaleMeansOwed(es, p, slot);
    }
  }

  /**
   A lookup in any process to which nothing is owed on the slots it consults answers as the stored
   rows do, whatever is going on elsewhere.
   */
  lemma UnowedLookupsArePlain(es: seq<Event>, p: ProcessId, d: Definition, key: Key, scopeId: Option<string>)
    requires p in Reached(es).processes
    requires var s := Reached(es);
             && (forall slot: Slot | slot.key == key :: s.processes[p].parse(slot) == d.parse)
             && !Owed(s, p, GlobalSlot(key))
             && (AsksProvider(d, scopeId) ==> !Owed(s, p, ProviderSlot(key, scopeId.value)))
    ensures var s := Reached(es);
            ResolveThrough(s.processes[p].cache, s.rows, d, key, scopeId) == PlainResolve(s.rows, d, key, scopeId)
  {
    var s := Reached(es);
    var x := s.processes[p];
    forall slot: Slot | slot.key == key && !Owed(s, p, slot) ensures View(x.cache, s.rows, d.parse, slot) == Fetched(s.rows, d.parse, slot) {
      if Stale(x, s.rows, slot) {
        StaleMeansOwed(es, p, slot);
      }
    }
  }

  // --- What is owed can be paid -------------------------------------------------

  /**
   A message drops exactly the entries it covers: those are read afresh, and nothing else the process holds
   is touched, by its own echo and other domains' messages least of all.
   */
  lemma HearingDropsWhatIsCovered(es: seq<Event>, p: ProcessId, m: Message, slot: Slot)
    requires p in Reached(es).processes && m in Reached(es).processes[p].inbox
    ensures var s, s' := Reached(es), Next(Reached(es), Receive(p, m));
            var was, now := s.processes[p].cache, s'.processes[p].cache;
            && p in s'.processes && s'.processes[p].inbox == s.processes[p].inbox - multiset{m}
            && if Covers(p, m, slot) then slot !in now.entries && !Stale(s'.processes[p], s'.rows, slot)
               else (slot in now.entries <==> slot in was.entries) && (slot in was.entries ==> now.entries[slot] == was.entries[slot])
  {
    EveryRun(es);
    assert ReadsAreOld(Reached(es).processes[p]);
  }

  /** Losing the connection and getting it back always cures a process that had subscribed: nothing it holds is stale. */
  lemma ReconnectingCures(es: seq<Event>, p: ProcessId, slot: Slot)
    requires p in Reached(es).processes && Reached(es).processes[p].everSubscribed
    ensures var s' := Next(Next(Next(Reached(es), Disconnect(p)), Subscribe(p)), Resync(p));
            && p in s'.processes && s'.processes[p].link == Live && s'.rows == Reached(es).rows
            && slot !in s'.processes[p].cache.entries && !Stale(s'.processes[p], s'.rows, slot)
  {
    EveryRun(es);
    assert ReadsAreOld(Reached(es).processes[p]);
  }

  /** Whatever domains are on record go out as soon as the channel carries them, to everybody connected. */
  lemma LostNewsGoesOut(s: System, p: ProcessId, a: nat, domains: seq<Domain>, q: ProcessId)
    requires p in s.processes && a !in s.processes[p].announcing
    requires domains != [] && DomainsOf(domains) == s.processes[p].unannounced
    requires q in s.processes && s.processes[q].link != Down
    ensures var s' := Next(Next(s, BeginAnnouncing(p, a, domains)), Event.Announce(p, a, true));
            && p in s'.processes && q in s'.processes
            && Message(p, domains[0], None) in s'.processes[q].inbox
            && (if |domains| == 1 then a !in s'.processes[p].announcing
                else a in s'.processes[p].announcing && s'.processes[p].announcing[a] == domains[1..])
            && s'.processes[p].unannounced == {}
  {
  }

  // --- Why the first subscription has to come first --------------------------

  const ENTRY := GlobalSlot(0)
  const ACCEPT: Slot -> Value -> Option<Value> := (slot: Slot) => (v: Value) => Some(v)
  const NEWCOMER := Process(ACCEPT, EMPTY_CACHE, map[], Down, false, multiset{}, {}, map[])
  const EARLY_READ := [
    Start(1, ACCEPT), Start(2, ACCEPT), BeginRead(1, 0, ENTRY), Query(1, 0), WriteBack(1, 0),
    Event.Commit(2, 0, ENTRY, Some(5)), DropLocally(0), Publish(0, true)]

  lemma AfterEvent(es: seq<Event>, k: nat, s: System, s': System)
    requires k < |es| && Reached(es[..k]) == s && Enabled(s, es[k]) && Apply(s, es[k]) == s'
    ensures Reached(es[..k + 1]) == s'
  {
    assert es[..k + 1][..k] == es[..k];
  }

  lemma TwoNewcomers() returns (s: System)
    ensures Reached(EARLY_READ[..2]) == s && s == System(map[], map[1 := NEWCOMER, 2 := NEWCOMER], map[])
  {
    var one := System(map[], map[1 := NEWCOMER], map[]);
    s := System(map[], map[1 := NEWCOMER, 2 := NEWCOMER], map[]);
    AfterEvent(EARLY_READ, 0, NO_SYSTEM, one);
    AfterEvent(EARLY_READ, 1, one, s);
  }

  lemma ReadAnswered() returns (s: System)
    ensures Reached(EARLY_READ[..4]) == s
    ensures s.rows == map[] && s.writes == map[]
    ensures s.processes == map[1 := NEWCOMER.(inFlight := map[0 := Lookup(ENTRY, 0, Some(None))]), 2 := NEWCOMER]
  {
    var two := TwoNewcomers();
    var reading := NEWCOMER.(inFlight := map[0 := Lookup(ENTRY, 0, None)]);
    AfterEvent(EARLY_READ, 2, two, With(two, 1, reading));
    var answered := NEWCOMER.(inFlight := map[0 := Lookup(ENTRY, 0, Some(None))]);
    assert reading.inFlight[0 := Lookup(ENTRY, 0, Some(None))] == answered.inFlight;
    assert Apply(With(two, 1, reading), EARLY_READ[3]).processes == With(two, 1, answered).processes;
    s := With(two, 1, answered);
    AfterEvent(EARLY_READ, 3, With(two, 1, reading), s);
  }

  lemma ReadBeforeSubscribing() returns (s: System)
    ensures Reached(EARLY_READ[..5]) == s && s.rows == map[] && s.writes == map[]
    ensures s.processes == map[1 := NEWCOMER.(cache := Cache(map[ENTRY := None], 0)), 2 := NEWCOMER]
  {
    var answered := ReadAnswered();
    var read := ApplyWriteBack(answered.processes[1], 0);
    assert read.inFlight == map[];
    s := With(answered, 1, read);
    AfterEvent(EARLY_READ, 4, answered, s);
  }

  lemma WrittenElsewhere() returns (s: System)
    ensures Reached(EARLY_READ[..7]) == s && s.rows == map[ENTRY := 5]
    ensures s.writes == map[0 := Write(2, ENTRY, Publishing)] && s.processes.Keys == {1, 2}
    ensures s.processes[1] == NEWCOMER.(cache := Cache(map[ENTRY := None], 0)) && Quiet(s.processes[2])
  {
    var cached := ReadBeforeSubscribing();
    var committed := Apply(cached, EARLY_READ[5]);
    AfterEvent(EARLY_READ, 5, cached, committed);
    s := Apply(committed, DropLocally(0));
    AfterEvent(EARLY_READ, 6, committed, s);
  }

  lemma AnnouncedUnheard() returns (s: System)
    ensures Reached(EARLY_READ) == s && s.writes == map[] && s.rows == map[ENTRY := 5] && s.processes.Keys == {1, 2}
    ensures s.processes[1] == NEWCOMER.(cache := Cache(map[ENTRY := None], 0)) && Quiet(s.processes[2])
  {
    var written := WrittenElsewhere();
    s := Apply(written, Publish(0, true));
    AfterEvent(EARLY_READ, 7, written, s);
    assert EARLY_READ[..8] == EARLY_READ;
  }

  /**
   A process that cached before its first subscription keeps what it cached: the first subscription
   drops nothing, so a write announced before it is never heard and nothing is owed.
   */
  lemma LateFirstSubscriptionStaysStale()
    ensures var s := Reached(EARLY_READ);
            1 in s.processes && s.processes[1].link == Down && !s.processes[1].everSubscribed
    ensures var s := Reached(EARLY_READ);
            var subscribed := With(s, 1, ApplySubscribe(s.processes[1]));
            Stale(subscribed.processes[1], subscribed.rows, ENTRY) && !Owed(subscribed, 1, ENTRY)
  {
    var sent := AnnouncedUnheard();
  }
}
