/**
 The provider registry as the channel's second client: every process holds a snapshot of some
 database version, rebuilt by chained reloads that messages and writes call for.
 */
module RegistryProtocols {
  import opened Wrappers
  import opened InvalidationProtocols

  /** A rebuild under way: the write it was called for, if any, and the version its query returned. */
  datatype Rebuild = Rebuild(owner: Option<nat>, read: Option<nat>)

  /** `failedUpTo` is the database version when a rebuild last failed here. */
  datatype Registry = Registry(
    version: nat,
    queue: seq<Option<nat>>,
    running: Option<Rebuild>,
    failedUpTo: nat,
    link: Link,
    everSubscribed: bool,
    inbox: multiset<Message>,
    unannounced: bool,
    announcing: nat)

  /** A provider write between its commit and the end of its broadcast, by the version it made. */
  datatype Stage = Stored | Reloading | Telling
  datatype ProviderWrite = ProviderWrite(process: ProcessId, stage: Stage)

  /** `unspoken` are the versions whose writer's own rebuild failed, so that they were never announced. */
  datatype Registries = Registries(
    database: nat,
    processes: map<ProcessId, Registry>,
    writes: map<nat, ProviderWrite>,
    unspoken: set<nat>)

  const NO_REGISTRIES := Registries(0, map[], map[], {})

  /** Noise is any message that comes from nowhere in the model: another domain's, or one nobody can read. */
  datatype Event =
    | Boot(p: ProcessId)
    | Stop(p: ProcessId)
    | CommitProvider(p: ProcessId)
    | CallReload(version: nat)
    | RequestReload(p: ProcessId)
    | Begin(p: ProcessId)
    | ReadRows(p: ProcessId)
    | Load(p: ProcessId)
    | Fail(p: ProcessId)
    | Tell(version: nat, sent: bool)
    | BeginAnnouncing(p: ProcessId)
    | Announce(p: ProcessId, sent: bool)
    | Noise(p: ProcessId, message: Message)
    | Receive(p: ProcessId, message: Message)
    | Disconnect(p: ProcessId)
    | Subscribe(p: ProcessId)
    | Resync(p: ProcessId)

  // --- Steps ----------------------------------------------------------------

  function Queued(x: Registry, owner: Option<nat>): Registry {
    x.(queue := x.queue + [owner])
  }

  function Heard(x: Registry, m: Message): Registry {
    if x.link == Down then x else x.(inbox := x.inbox + multiset{m})
  }

  function Spread(processes: map<ProcessId, Registry>, m: Message): map<ProcessId, Registry> {
    map p | p in processes :: Heard(processes[p], m)
  }

  /** A reload is coming that has not read the table yet. */
  predicate Coming(x: Registry) {
    x.queue != [] || (x.running.Some? && x.running.value.read == None)
  }

  predicate Concerns(p: ProcessId, m: Message) {
    m.Unintelligible? || (m.origin != p && m.domain == Providers)
  }

  /** The assumptions: no process stops with news to tell, and a first subscription finds a snapshot that is current or about to be. */
  predicate Enabled(s: Registries, e: Event) {
    match e
    case Boot(p) => p !in s.processes
    case Stop(p) =>
      p in s.processes && !s.processes[p].unannounced && s.processes[p].announcing == 0
      && forall v | v in s.writes :: s.writes[v].process != p
    case CommitProvider(p) => p in s.processes
    case CallReload(v) => v in s.writes && s.writes[v].stage == Stored && s.writes[v].process in s.processes
    case RequestReload(p) => p in s.processes
    case Begin(p) => p in s.processes && s.processes[p].running == None && s.processes[p].queue != []
    case ReadRows(p) => p in s.processes && s.processes[p].running.Some? && s.processes[p].running.value.read == None
    case Load(p) => p in s.processes && s.processes[p].running.Some? && s.processes[p].running.value.read.Some?
    case Fail(p) => p in s.processes && s.processes[p].running.Some?
    case Tell(v, _) => v in s.writes && s.writes[v].stage == Telling && s.writes[v].process in s.processes
    case BeginAnnouncing(p) => p in s.processes && s.processes[p].unannounced
    case Announce(p, _) => p in s.processes && 0 < s.processes[p].announcing
    case Noise(p, _) => p in s.processes
    case Receive(p, m) => p in s.processes && m in s.processes[p].inbox
    case Disconnect(p) => p in s.processes
    case Subscribe(p) =>
      p in s.processes && s.processes[p].link == Down
      && (!s.processes[p].everSubscribed ==> s.processes[p].version == s.database || Coming(s.processes[p]))
    case Resync(p) => p in s.processes && s.processes[p].link == Resyncing
  }

  function At(s: Registries, p: ProcessId, x: Registry): Registries {
    s.(processes := s.processes[p := x])
  }

  /** A loaded snapshot lets its write go on to tell the others. */
  function ApplyLoad(s: Registries, p: ProcessId): Registries
    requires Enabled(s, Load(p))
  {
    var x := s.processes[p];
    var owner := x.running.value.owner;
    At(s, p, x.(version := x.running.value.read.value, running := None))
      .(writes := if owner.Some? && owner.value in s.writes
                  then s.writes[owner.value := s.writes[owner.value].(stage := Telling)] else s.writes)
  }

  /** A failed rebuild ends its write's call: nobody is told. */
  function ApplyFail(s: Registries, p: ProcessId): Registries
    requires Enabled(s, Fail(p))
  {
    var x := s.processes[p];
    var owner := x.running.value.owner;
    var s' := At(s, p, x.(running := None, failedUpTo := s.database));
    if owner.None? then s' else s'.(writes := s.writes - {owner.value}, unspoken := s.unspoken + {owner.value})
  }

  function ApplyTell(s: Registries, v: nat, sent: bool): Registries
    requires Enabled(s, Tell(v, sent))
  {
    var p := s.writes[v].process;
    var done := s.(writes := s.writes - {v});
    if sent then done.(processes := Spread(s.processes, Message(p, Providers, None)))
    else At(done, p, s.processes[p].(unannounced := true))
  }

  function ApplyAnnounce(s: Registries, p: ProcessId, sent: bool): Registries
    requires Enabled(s, Event.Announce(p, sent))
  {
    var x := s.processes[p].(announcing := s.processes[p].announcing - 1);
    if sent then s.(processes := Spread(s.processes[p := x], Message(p, Providers, None)))
    else At(s, p, x.(unannounced := true))
  }

  function Apply(s: Registries, e: Event): Registries
    requires Enabled(s, e)
  {
    match e
    case Boot(p) => At(s, p, Registry(0, [None], None, 0, Down, false, multiset{}, false, 0))
    case Stop(p) => s.(processes := s.processes - {p})
    case CommitProvider(p) =>
      s.(database := s.database + 1, writes := s.writes[s.database + 1 := ProviderWrite(p, Stored)])
    case CallReload(v) =>
      var p := s.writes[v].process;
      At(s, p, Queued(s.processes[p], Some(v))).(writes := s.writes[v := s.writes[v].(stage := Reloading)])
    case RequestReload(p) => At(s, p, Queued(s.processes[p], None))
    case Begin(p) =>
      var x := s.processes[p];
      At(s, p, x.(running := Some(Rebuild(x.queue[0], None)), queue := x.queue[1..]))
    case ReadRows(p) =>
      var x := s.processes[p];
      At(s, p, x.(running := Some(x.running.value.(read := Some(s.database)))))
    case Load(p) => ApplyLoad(s, p)
    case Fail(p) => ApplyFail(s, p)
    case Tell(v, sent) => ApplyTell(s, v, sent)
    case BeginAnnouncing(p) =>
      At(s, p, s.processes[p].(unannounced := false, announcing := s.processes[p].announcing + 1))
    case Announce(p, sent) => ApplyAnnounce(s, p, sent)
    case Noise(p, m) => At(s, p, Heard(s.processes[p], m))
    case Receive(p, m) =>
      var x := s.processes[p].(inbox := s.processes[p].inbox - multiset{m});
      At(s, p, if Concerns(p, m) then Queued(x, None) else x)
    case Disconnect(p) => At(s, p, s.processes[p].(link := Down, inbox := multiset{}))
    case Subscribe(p) =>
      var x := s.processes[p];
      At(s, p, x.(everSubscribed := true, link := if x.everSubscribed then Resyncing else Live))
    case Resync(p) => At(s, p, Queued(s.processes[p].(link := Live), None))
  }

  function Next(s: Registries, e: Event): Registries {
    if Enabled(s, e) then Apply(s, e) else s
  }

  function Reached(es: seq<Event>): Registries {
    if es == [] then NO_REGISTRIES else Next(Reached(es[..|es| - 1]), es[|es| - 1])
  }

  // --- What a registry that is behind is owed ------------------------------------

  predicate Behind(x: Registry, database: nat, v: nat) {
    x.version < v <= database
  }

  /** The write that made this version still has to reload here, or to tell this process. */
  predicate WriteOwes(writes: map<nat, ProviderWrite>, p: ProcessId, v: nat) {
    v in writes && (writes[v].stage != Telling || writes[v].process != p)
  }

  predicate MessageWaits(x: Registry, p: ProcessId) {
    exists m | m in x.inbox :: Concerns(p, m)
  }

  /** A reload that will bring this version, or the news that leads to one. */
  predicate HereOwes(x: Registry, p: ProcessId, v: nat) {
    || x.link != Live
    || MessageWaits(x, p)
    || Coming(x)
    || (x.running.Some? && x.running.value.read.Some? && v <= x.running.value.read.value)
  }

  predicate HasNews(x: Registry) {
    x.unannounced || 0 < x.announcing
  }

  predicate OthersOwe(processes: map<ProcessId, Registry>, p: ProcessId) {
    exists q | q in processes :: q != p && HasNews(processes[q])
  }

  /** The rebuild that would have brought this version failed, here or at its writer. */
  predicate LostToAFailure(s: Registries, x: Registry, v: nat) {
    v <= x.failedUpTo || v in s.unspoken
  }

  predicate Owed(s: Registries, p: ProcessId, v: nat)
    requires p in s.processes
  {
    || WriteOwes(s.writes, p, v)
    || HereOwes(s.processes[p], p, v)
    || OthersOwe(s.processes, p)
    || LostToAFailure(s, s.processes[p], v)
  }

  predicate ReloadsOk(s: Registries, p: ProcessId, x: Registry) {
    && x.version <= s.database && (!x.everSubscribed ==> x.link == Down)
    && (forall i | 0 <= i < |x.queue| && x.queue[i].Some? :: OwnerOk(s, p, x.queue[i].value))
    && (x.running.Some? ==>
          && (x.running.value.read.Some? ==> x.version <= x.running.value.read.value <= s.database)
          && (x.running.value.owner.Some? ==>
                && OwnerOk(s, p, x.running.value.owner.value)
                && (x.running.value.read.Some? ==> x.running.value.owner.value <= x.running.value.read.value)))
  }

  predicate OwnerOk(s: Registries, p: ProcessId, v: nat) {
    v <= s.database && (v in s.writes ==> s.writes[v].process == p)
  }

  ghost predicate BehindIsOwed(s: Registries, p: ProcessId)
    requires p in s.processes
  {
    forall v: nat | Behind(s.processes[p], s.database, v) :: Owed(s, p, v)
  }

  ghost predicate Inv(s: Registries) {
    && (forall p | p in s.processes :: ReloadsOk(s, p, s.processes[p]))
    && (forall p | p in s.processes :: BehindIsOwed(s, p))
    && (forall v | v in s.writes :: v <= s.database)
  }

  // --- Every step keeps it --------------------------------------------------

  lemma NewsSpreads(processes: map<ProcessId, Registry>, processes': map<ProcessId, Registry>, p: ProcessId)
    requires OthersOwe(processes, p)
    requires forall q | q in processes && HasNews(processes[q]) :: q in processes' && HasNews(processes'[q])
    ensures OthersOwe(processes', p)
  {
  }

  /** A step of one process that loses none of its news and none of what it is owed. */
  ghost predicate OwnStep(s: Registries, p: ProcessId, x: Registry, x': Registry) {
    && ReloadsOk(s, p, x') && (HasNews(x) ==> HasNews(x')) && x.failedUpTo <= x'.failedUpTo
    && (forall v: nat | Behind(x', s.database, v) ::
          HereOwes(x', p, v) || v <= x'.failedUpTo || (Behind(x, s.database, v) && !HereOwes(x, p, v)))
  }

  lemma OwnStepKeeps(s: Registries, p: ProcessId, x: Registry)
    requires Inv(s) && p in s.processes && OwnStep(s, p, s.processes[p], x)
    ensures Inv(At(s, p, x))
  {
    var s' := At(s, p, x);
    forall q | q in s'.processes ensures ReloadsOk(s', q, s'.processes[q]) {
      assert q != p ==> ReloadsOk(s, q, s.processes[q]);
    }
    forall q | q in s'.processes ensures BehindIsOwed(s', q) {
      forall v: nat | Behind(s'.processes[q], s'.database, v) ensures Owed(s', q, v) {
        if q != p || !(HereOwes(x, p, v) || v <= x.failedUpTo) {
          assert BehindIsOwed(s, q) && Owed(s, q, v);
          if OthersOwe(s.processes, q) {
            NewsSpreads(s.processes, s'.processes, q);
          }
        }
      }
    }
  }

  lemma HeardKeeps(x: Registry, p: ProcessId, m: Message, v: nat)
    ensures HereOwes(x, p, v) || Concerns(p, m) ==> HereOwes(Heard(x, m), p, v)
  {
  }

  lemma SpreadKeeps(s: Registries, m: Message)
    requires Inv(s)
    ensures Inv(s.(processes := Spread(s.processes, m)))
  {
    var s' := s.(processes := Spread(s.processes, m));
    forall q | q in s'.processes ensures ReloadsOk(s', q, s'.processes[q]) && BehindIsOwed(s', q) {
      assert ReloadsOk(s, q, s.processes[q]) && BehindIsOwed(s, q);
      forall v: nat | Behind(s'.processes[q], s'.database, v) ensures Owed(s', q, v) {
        assert Owed(s, q, v);
        HeardKeeps(s.processes[q], q, m, v);
        if OthersOwe(s.processes, q) {
          NewsSpreads(s.processes, s'.processes, q);
        }
      }
    }
  }

  predicate Reaches(s: Registries, q: ProcessId, v: nat)
    requires q in s.processes
  {
    HereOwes(s.processes[q], q, v) || OthersOwe(s.processes, q)
  }

  /** A write is over once everyone else has the news coming, or its loss on record. */
  lemma WriteDone(s: Registries, v: nat)
    requires Inv(s) && v in s.writes && s.writes[v].stage == Telling
    requires forall q | q in s.processes && q != s.writes[v].process :: Reaches(s, q, v)
    ensures Inv(s.(writes := s.writes - {v}))
  {
    var s' := s.(writes := s.writes - {v});
    forall q | q in s'.processes ensures ReloadsOk(s', q, s'.processes[q]) && BehindIsOwed(s', q) {
      assert ReloadsOk(s, q, s.processes[q]) && BehindIsOwed(s, q);
      forall u | Behind(s'.processes[q], s'.database, u) ensures Owed(s', q, u) {
        assert Owed(s, q, u);
        if u == v && q != s.writes[v].process {
          assert Reaches(s, q, v);
        }
      }
    }
  }

  lemma TellKeeps(s: Registries, v: nat, sent: bool)
    requires Inv(s) && Enabled(s, Tell(v, sent))
    ensures Inv(ApplyTell(s, v, sent))
  {
    var p := s.writes[v].process;
    if sent {
      var m := Message(p, Providers, None);
      var heard := s.(processes := Spread(s.processes, m));
      SpreadKeeps(s, m);
      forall q | q in heard.processes && q != p ensures Reaches(heard, q, v) {
        HeardKeeps(s.processes[q], q, m, v);
      }
      WriteDone(heard, v);
    } else {
      var x' := s.processes[p].(unannounced := true);
      assert ReloadsOk(s, p, s.processes[p]);
      OwnStepKeeps(s, p, x');
      var lost := At(s, p, x');
      forall q | q in lost.processes && q != p ensures Reaches(lost, q, v) {
        assert HasNews(lost.processes[p]);
      }
      WriteDone(lost, v);
    }
  }

  /** News that has been spread may be forgotten. */
  lemma NewsTold(s: Registries, p: ProcessId, x: Registry)
    requires Inv(s) && p in s.processes && x == s.processes[p].(announcing := x.announcing)
    requires forall q, v: nat | q in s.processes && q != p :: HereOwes(s.processes[q], q, v)
    ensures Inv(At(s, p, x))
  {
    var s' := At(s, p, x);
    forall q | q in s'.processes ensures ReloadsOk(s', q, s'.processes[q]) && BehindIsOwed(s', q) {
      assert ReloadsOk(s, q, s.processes[q]) && BehindIsOwed(s, q);
      forall v: nat | Behind(s'.processes[q], s'.database, v) ensures Owed(s', q, v) {
        assert Owed(s, q, v);
        if q == p && OthersOwe(s.processes, q) {
          var o :| o in s.processes && o != q && HasNews(s.processes[o]);
          assert HasNews(s'.processes[o]);
        }
      }
    }
  }

  lemma SpreadThenForget(s: Registries, heard: Registries, p: ProcessId)
    requires Enabled(s, Event.Announce(p, true))
    requires heard == s.(processes := Spread(s.processes, Message(p, Providers, None)))
    ensures ApplyAnnounce(s, p, true) == At(heard, p, heard.processes[p].(announcing := s.processes[p].announcing - 1))
  {
  }

  lemma AnnouncedKeeps(s: Registries, p: ProcessId)
    requires Inv(s) && Enabled(s, Event.Announce(p, true))
    ensures Inv(ApplyAnnounce(s, p, true))
  {
    var m := Message(p, Providers, None);
    var heard := s.(processes := Spread(s.processes, m));
    SpreadKeeps(s, m);
    forall q, v: nat | q in heard.processes && q != p ensures HereOwes(heard.processes[q], q, v) {
      HeardKeeps(s.processes[q], q, m, v);
    }
    NewsTold(heard, p, heard.processes[p].(announcing := s.processes[p].announcing - 1));
    SpreadThenForget(s, heard, p);
  }

  lemma AnnounceKeeps(s: Registries, p: ProcessId, sent: bool)
    requires Inv(s) && Enabled(s, Event.Announce(p, sent))
    ensures Inv(ApplyAnnounce(s, p, sent))
  {
    if sent {
      AnnouncedKeeps(s, p);
    } else {
      assert ReloadsOk(s, p, s.processes[p]);
      OwnStepKeeps(s, p, s.processes[p].(announcing := s.processes[p].announcing - 1, unannounced := true));
    }
  }

  lemma LoadKeeps(s: Registries, p: ProcessId)
    requires Inv(s) && Enabled(s, Load(p))
    ensures Inv(ApplyLoad(s, p))
  {
    var x, s' := s.processes[p], ApplyLoad(s, p);
    assert ReloadsOk(s, p, x);
    forall q | q in s'.processes ensures ReloadsOk(s', q, s'.processes[q]) && BehindIsOwed(s', q) {
      assert ReloadsOk(s, q, s.processes[q]) && BehindIsOwed(s, q);
      forall v: nat | Behind(s'.processes[q], s'.database, v) ensures Owed(s', q, v) {
        assert Behind(s.processes[q], s.database, v) && Owed(s, q, v);
        if OthersOwe(s.processes, q) {
          NewsSpreads(s.processes, s'.processes, q);
        }
      }
    }
  }

  lemma FailKeeps(s: Registries, p: ProcessId)
    requires Inv(s) && Enabled(s, Fail(p))
    ensures Inv(ApplyFail(s, p))
  {
    var s' := ApplyFail(s, p);
    forall q | q in s'.processes ensures ReloadsOk(s', q, s'.processes[q]) && BehindIsOwed(s', q) {
      assert ReloadsOk(s, q, s.processes[q]) && BehindIsOwed(s, q);
      forall v: nat | Behind(s'.processes[q], s'.database, v) ensures Owed(s', q, v) {
        assert Owed(s, q, v);
        if OthersOwe(s.processes, q) {
          NewsSpreads(s.processes, s'.processes, q);
        }
      }
    }
  }

  lemma ComingAndGoingKeeps(s: Registries, e: Event)
    requires Inv(s) && Enabled(s, e) && (e.Boot? || e.Stop?)
    ensures Inv(Apply(s, e))
  {
    var s' := Apply(s, e);
    forall q | q in s'.processes ensures ReloadsOk(s', q, s'.processes[q]) && BehindIsOwed(s', q) {
      if q in s.processes {
        assert ReloadsOk(s, q, s.processes[q]) && BehindIsOwed(s, q);
        forall v: nat | Behind(s'.processes[q], s'.database, v) ensures Owed(s', q, v) {
          assert Owed(s, q, v);
          if OthersOwe(s.processes, q) {
            NewsSpreads(s.processes, s'.processes, q);
          }
        }
      }
    }
  }

  lemma WriteStepKeeps(s: Registries, e: Event)
    requires Inv(s) && Enabled(s, e) && (e.CommitProvider? || e.CallReload?)
    ensures Inv(Apply(s, e))
  {
    var s' := Apply(s, e);
    forall q | q in s'.processes ensures ReloadsOk(s', q, s'.processes[q]) && BehindIsOwed(s', q) {
      assert ReloadsOk(s, q, s.processes[q]) && BehindIsOwed(s, q);
      forall v: nat | Behind(s'.processes[q], s'.database, v) ensures Owed(s', q, v) {
        if v <= s.database {
          assert Owed(s, q, v);
          if OthersOwe(s.processes, q) {
            NewsSpreads(s.processes, s'.processes, q);
          }
        }
      }
    }
  }

  lemma ReloadStepKeeps(s: Registries, e: Event)
    requires Inv(s) && Enabled(s, e) && (e.RequestReload? || e.Begin? || e.ReadRows? || e.BeginAnnouncing?)
    ensures Inv(Apply(s, e))
  {
    assert ReloadsOk(s, e.p, s.processes[e.p]);
    OwnStepKeeps(s, e.p, Apply(s, e).processes[e.p]);
  }

  lemma LinkStepKeeps(s: Registries, e: Event)
    requires Inv(s) && Enabled(s, e) && (e.Disconnect? || e.Subscribe? || e.Resync?)
    ensures Inv(Apply(s, e))
  {
    assert ReloadsOk(s, e.p, s.processes[e.p]);
    OwnStepKeeps(s, e.p, Apply(s, e).processes[e.p]);
  }

  lemma ReceiveKeeps(s: Registries, p: ProcessId, m: Message)
    requires Inv(s) && Enabled(s, Event.Receive(p, m))
    ensures Inv(Apply(s, Event.Receive(p, m)))
  {
    var x, x' := s.processes[p], Apply(s, Event.Receive(p, m)).processes[p];
    assert ReloadsOk(s, p, x);
    if !Concerns(p, m) && MessageWaits(x, p) {
      var n :| n in x.inbox && Concerns(p, n);
      assert n in x'.inbox;
    }
    OwnStepKeeps(s, p, x');
  }

  lemma NoiseKeeps(s: Registries, p: ProcessId, m: Message)
    requires Inv(s) && p in s.processes
    ensures Inv(At(s, p, Heard(s.processes[p], m)))
  {
    assert ReloadsOk(s, p, s.processes[p]);
    forall v: nat ensures HereOwes(s.processes[p], p, v) ==> HereOwes(Heard(s.processes[p], m), p, v) {
      HeardKeeps(s.processes[p], p, m, v);
    }
    OwnStepKeeps(s, p, Heard(s.processes[p], m));
  }

  lemma EventKeeps(s: Registries, e: Event)
    requires Inv(s) && Enabled(s, e)
    ensures Inv(Apply(s, e))
  {
    match e
    case Boot(_) => ComingAndGoingKeeps(s, e);
    case Stop(_) => ComingAndGoingKeeps(s, e);
    case CommitProvider(_) => WriteStepKeeps(s, e);
    case CallReload(_) => WriteStepKeeps(s, e);
    case RequestReload(_) => ReloadStepKeeps(s, e);
    case Begin(_) => ReloadStepKeeps(s, e);
    case ReadRows(_) => ReloadStepKeeps(s, e);
    case BeginAnnouncing(_) => ReloadStepKeeps(s, e);
    case Load(p) => LoadKeeps(s, p);
    case Fail(p) => FailKeeps(s, p);
    case Tell(v, sent) => TellKeeps(s, v, sent);
    case Announce(p, sent) => AnnounceKeeps(s, p, sent);
    case Noise(p, m) => NoiseKeeps(s, p, m);
    case Receive(p, m) => ReceiveKeeps(s, p, m);
    case _ => LinkStepKeeps(s, e);
  }

  lemma {:induction false} EveryRun(es: seq<Event>)
    ensures Inv(Reached(es))
  {
    if es != [] {
      var n := |es| - 1;
      EveryRun(es[..n]);
      if Enabled(Reached(es[..n]), es[n]) {
        EventKeeps(Reached(es[..n]), es[n]);
      }
    }
  }

  // --- What a reader can rely on --------------------------------------------

  /**
   Whenever a registry lacks a committed version, its write is still on the way to this process, a
   message waits or a resync is due, a reload is coming or has read it, another process has news on
   record, or the rebuild that should have brought it failed.
   */
  lemma BehindMeansOwed(es: seq<Event>, p: ProcessId, v: nat)
    requires p in Reached(es).processes && Behind(Reached(es).processes[p], Reached(es).database, v)
    ensures Owed(Reached(es), p, v)
  {
    EveryRun(es);
    assert BehindIsOwed(Reached(es), p);
  }

  predicate Settled(s: Registries) {
    && s.writes == map[]
    && forall p | p in s.processes ::
         var x := s.processes[p];
         x.link == Live && x.inbox == multiset{} && x.queue == [] && x.running == None && !HasNews(x)
  }

  /** When nothing is under way, a registry lacks nothing but what a failed rebuild cost it. */
  lemma SettledMeansCurrent(es: seq<Event>, p: ProcessId, v: nat)
    requires Settled(Reached(es)) && p in Reached(es).processes
    requires !LostToAFailure(Reached(es), Reached(es).processes[p], v)
    ensures v <= Reached(es).database ==> v <= Reached(es).processes[p].version
  {
    var s := Reached(es);
    if Behind(s.processes[p], s.database, v) {
      BehindMeansOwed(es, p, v);
    }
  }

  // --- What is owed can be paid -------------------------------------------------

  /** A rebuild that nothing fails brings the state of the table at its query, every version committed by then. */
  lemma RebuildsAreCurrent(s: Registries, p: ProcessId)
    requires p in s.processes && s.processes[p].running == None && s.processes[p].queue != []
    ensures var s' := Next(Next(Next(s, Begin(p)), ReadRows(p)), Load(p));
            && p in s'.processes && s'.processes[p].version == s.database == s'.database
            && s'.processes[p].running == None && s'.processes[p].queue == s.processes[p].queue[1..]
  {
  }

  /** A message asks for one reload when somebody else's providers changed or nobody can read it, and for none otherwise. */
  lemma HearingAsksForAReload(s: Registries, p: ProcessId, m: Message)
    requires p in s.processes && m in s.processes[p].inbox
    ensures var s' := Next(s, Event.Receive(p, m));
            && p in s'.processes && s'.processes[p].inbox == s.processes[p].inbox - multiset{m}
            && s'.processes[p].queue
               == s.processes[p].queue
                  + match m
                    case Unintelligible => [None]
                    case Message(origin, domain, _) => if origin == p || domain == Configuration then [] else [None]
  {
  }

  /** A process that has just booted can listen at once, however much was committed before: its first reload is still coming. */
  lemma NewcomersListen(s: Registries, p: ProcessId)
    requires p !in s.processes
    ensures var s' := Next(Next(s, Boot(p)), Event.Subscribe(p));
            p in s'.processes && s'.processes[p].link == Live && s'.processes[p].queue == [None] && s'.database == s.database
  {
  }

  /** Losing the connection and getting it back always asks for a reload that reads the table afresh. */
  lemma ReconnectingAsksForAReload(s: Registries, p: ProcessId)
    requires p in s.processes && s.processes[p].everSubscribed
    ensures var s' := Next(Next(Next(s, Event.Disconnect(p)), Event.Subscribe(p)), Event.Resync(p));
            p in s'.processes && s'.processes[p].link == Live && s'.processes[p].queue == s.processes[p].queue + [None]
  {
  }

  /** News on record goes out as soon as the channel carries it, to everybody connected. */
  lemma LostNewsGoesOut(s: Registries, p: ProcessId, q: ProcessId)
    requires p in s.processes && s.processes[p].unannounced && q in s.processes && s.processes[q].link != Down
    ensures var s' := Next(Next(s, Event.BeginAnnouncing(p)), Event.Announce(p, true));
            && p in s'.processes && q in s'.processes
            && Message(p, Providers, None) in s'.processes[q].inbox
            && !s'.processes[p].unannounced && s'.processes[p].announcing == s.processes[p].announcing
  {
  }

  /** The process a write came from is there until the write has been told or given up, so what is owed is never orphaned. */
  lemma {:induction false} WritersAreThere(es: seq<Event>, v: nat)
    requires v in Reached(es).writes
    ensures Reached(es).writes[v].process in Reached(es).processes
  {
    if es != [] {
      var n := |es| - 1;
      if v in Reached(es[..n]).writes {
        WritersAreThere(es[..n], v);
      }
    }
  }

  // --- Why the first subscription has to find a current snapshot ------------------

  const NEWCOMER := Registry(0, [None], None, 0, Down, false, multiset{}, false, 0)
  const IDLE := NEWCOMER.(queue := [])
  const EARLY_SNAPSHOT := [
    Boot(1), Begin(1), ReadRows(1), Load(1), Boot(2), CommitProvider(2), CallReload(1),
    Begin(2), ReadRows(2), Load(2), Begin(2), ReadRows(2), Load(2), Tell(1, true)]

  lemma AfterEvent(es: seq<Event>, k: nat, s: Registries, s': Registries)
    requires k < |es| && Reached(es[..k]) == s && Enabled(s, es[k]) && Apply(s, es[k]) == s'
    ensures Reached(es[..k + 1]) == s'
  {
    assert es[..k + 1][..k] == es[..k];
  }

  lemma Reads(es: seq<Event>, k: nat, s: Registries, p: ProcessId) returns (s': Registries)
    requires k + 2 <= |es| && Reached(es[..k]) == s && Enabled(s, Begin(p)) && s.processes[p].queue[0] == None
    requires es[k] == Begin(p) && es[k + 1] == ReadRows(p)
    ensures Reached(es[..k + 2]) == s' && s' == s.(processes := s'.processes) && s'.processes.Keys == s.processes.Keys
    ensures forall q | q in s.processes && q != p :: s'.processes[q] == s.processes[q]
    ensures s'.processes[p]
            == s.processes[p].(queue := s.processes[p].queue[1..], running := Some(Rebuild(None, Some(s.database))))
  {
    var begun := Apply(s, Begin(p));
    AfterEvent(es, k, s, begun);
    s' := Apply(begun, ReadRows(p));
    AfterEvent(es, k + 1, begun, s');
  }

  /** A process's three steps from a queued reload to a loaded snapshot. */
  lemma Reloads(es: seq<Event>, k: nat, s: Registries, p: ProcessId)
    requires k + 3 <= |es| && Reached(es[..k]) == s && Enabled(s, Begin(p)) && s.processes[p].queue[0] == None
    requires es[k] == Begin(p) && es[k + 1] == ReadRows(p) && es[k + 2] == Load(p)
    ensures Reached(es[..k + 3])
            == At(s, p, s.processes[p].(version := s.database, queue := s.processes[p].queue[1..]))
  {
    var answered := Reads(es, k, s, p);
    AfterEvent(es, k + 2, answered, ApplyLoad(answered, p));
    var x := s.processes[p].(version := s.database, queue := s.processes[p].queue[1..]);
    assert ApplyLoad(answered, p).processes == At(s, p, x).processes;
  }

  lemma UpToSnapshot() returns (s: Registries)
    ensures Reached(EARLY_SNAPSHOT[..4]) == s && s == Registries(0, map[1 := IDLE], map[], {})
  {
    var booted := Registries(0, map[1 := NEWCOMER], map[], {});
    AfterEvent(EARLY_SNAPSHOT, 0, NO_REGISTRIES, booted);
    Reloads(EARLY_SNAPSHOT, 1, booted, 1);
    assert booted.processes[1].queue[1..] == [];
    s := Registries(0, map[1 := IDLE], map[], {});
    assert At(booted, 1, IDLE).processes == s.processes;
  }

  lemma UpToCommit() returns (s: Registries)
    ensures Reached(EARLY_SNAPSHOT[..6]) == s
    ensures s == Registries(1, map[1 := IDLE, 2 := NEWCOMER], map[1 := ProviderWrite(2, Stored)], {})
  {
    var loaded := UpToSnapshot();
    var both := Registries(0, map[1 := IDLE, 2 := NEWCOMER], map[], {});
    AfterEvent(EARLY_SNAPSHOT, 4, loaded, both);
    s := Registries(1, both.processes, map[1 := ProviderWrite(2, Stored)], {});
    AfterEvent(EARLY_SNAPSHOT, 5, both, s);
  }

  lemma UpToCall() returns (s: Registries)
    ensures Reached(EARLY_SNAPSHOT[..7]) == s && s.database == 1 && s.unspoken == {}
    ensures s.writes == map[1 := ProviderWrite(2, Reloading)] && s.processes.Keys == {1, 2} && s.processes[1] == IDLE
    ensures s.processes[2] == NEWCOMER.(queue := [None, Some(1)])
  {
    var committed := UpToCommit();
    s := Apply(committed, CallReload(1));
    AfterEvent(EARLY_SNAPSHOT, 6, committed, s);
  }

  lemma UpToFirstLoad() returns (s: Registries)
    ensures Reached(EARLY_SNAPSHOT[..10]) == s && s.database == 1 && s.unspoken == {}
    ensures s.writes == map[1 := ProviderWrite(2, Reloading)] && s.processes.Keys == {1, 2} && s.processes[1] == IDLE
    ensures s.processes[2] == NEWCOMER.(version := 1, queue := [Some(1)])
  {
    var called := UpToCall();
    Reloads(EARLY_SNAPSHOT, 7, called, 2);
    s := Reached(EARLY_SNAPSHOT[..10]);
  }

  lemma UpToSecondRead() returns (s: Registries)
    ensures Reached(EARLY_SNAPSHOT[..12]) == s && s.database == 1 && s.unspoken == {}
    ensures s.writes == map[1 := ProviderWrite(2, Reloading)] && s.processes.Keys == {1, 2} && s.processes[1] == IDLE
    ensures s.processes[2] == IDLE.(version := 1, running := Some(Rebuild(Some(1), Some(1))))
  {
    var waiting := UpToFirstLoad();
    var begun := Apply(waiting, Begin(2));
    AfterEvent(EARLY_SNAPSHOT, 10, waiting, begun);
    s := Apply(begun, ReadRows(2));
    AfterEvent(EARLY_SNAPSHOT, 11, begun, s);
  }

  lemma UpToTold() returns (s: Registries)
    ensures Reached(EARLY_SNAPSHOT) == s && s.writes == map[] && s.unspoken == {} && s.database == 1
    ensures s.processes.Keys == {1, 2} && s.processes[1] == IDLE && !HasNews(s.processes[2])
  {
    var es := EARLY_SNAPSHOT;
    var answered := UpToSecondRead();
    var reloaded := Apply(answered, Load(2));
    AfterEvent(es, 12, answered, reloaded);
    s := Apply(reloaded, Tell(1, true));
    AfterEvent(es, 13, reloaded, s);
    assert es[..14] == es;
  }

  /**
   A snapshot loaded before the first subscription stays old: a commit announced in between was never
   heard, subscribing for the first time asks for no reload, and nothing is owed.
   */
  lemma LateFirstSubscriptionStaysBehind()
    ensures var s := Reached(EARLY_SNAPSHOT);
            1 in s.processes && s.processes[1].link == Down && !s.processes[1].everSubscribed
    ensures var s := Reached(EARLY_SNAPSHOT);
            var subscribed := At(s, 1, s.processes[1].(everSubscribed := true, link := Live));
            Behind(subscribed.processes[1], subscribed.database, 1) && !Owed(subscribed, 1, 1)
  {
    var s := UpToTold();
  }
}
