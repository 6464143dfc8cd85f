/** Whole runs: any interleaving of engine calls, client work on the secure store, refused
    commits, vanishing owners and process restarts. */
module LeaseRuns {
  import opened Wrappers
  import opened CredentialRecords
  import opened LeaseWorld
  import opened Safety
  import opened LeaseSteps
  import opened LeaseCalls
  import opened LeaseDetach
  import opened LeaseQueue

  datatype System = System(world: World, ghosts: Ghosts)

  datatype Event =
    | AcquireCall(owner: Owner, connection: Connection, action: Action, expected: Option<Version>, fetchTicket: Option<Id>)
    | FinishCall(owner: Owner, connection: Connection, ticket: Id, operation: Operation, identity: Option<string>)
    | PrepareCall(owner: Owner, connection: Connection, ticket: Id)
    | QueueCleanupCall(owner: Owner, connection: Connection, ticket: Id)
    | AcknowledgeCall(owner: Owner, connection: Connection, ticket: Id, cleaned: set<Slot>)
    | AcquireFetchCall(owner: Owner, connection: Connection)
    | ReleaseFetchCall(owner: Owner, connection: Connection, ticket: Id)
    | ReadCall(connection: Connection, expected: Option<Version>)
    | WriteCall(connection: Connection, expected: Option<Version>, payload: string, at: int)
    | UpgradeCall(connection: Connection, expected: Option<Version>, payload: string, at: int)
    | ClearCall(connection: Connection, expected: Option<Version>)
    | DetachCall(owner: Owner, order: seq<Connection>)
    | RestartProcess
    // The secure store, on the clients' side.
    | ClientWrite(owner: Owner, connection: Connection, ticket: Id, secret: Secret)
    | ClientDelete(owner: Owner, connection: Connection, ticket: Id, slot: Slot)
    | LateWrite(slot: Slot, secret: Secret)   // a detached owner's write arriving after all

  /** What the clients promise. The engine's own calls are otherwise unrestricted. */
  ghost predicate Allowed(s: System, e: Event) {
    var w, g := s.world, s.ghosts;
    match e
    case FinishCall(owner, c, ticket, operation, _) =>
      // Activation follows a write, under this lease, to the slot the holder was last told.
      operation == Activate && Holds(w, owner, c, ticket) && w.lanes[c].lease.value.slot.Some? ==>
        var lease := w.lanes[c].lease.value;
        lease.writable == lease.slot && ticket in g.wrote && Some(g.wrote[ticket].0) == lease.slot
    case AcknowledgeCall(owner, c, ticket, _) =>
      // Only something offered, or queued by queueLegacyCleanup, is acknowledged.
      Holds(w, owner, c, ticket) ==> c in w.disk.visible
    case WriteCall(_, _, _, at) => LongMin <= at <= LongMax
    case UpgradeCall(_, _, _, at) => LongMin <= at <= LongMax
    case DetachCall(_, order) => NoRepeats(order) && forall c: Connection :: c in order
    case ClientWrite(owner, c, ticket, _) => Holds(w, owner, c, ticket) && w.lanes[c].lease.value.writable.Some?
    case ClientDelete(owner, c, ticket, slot) =>
      Holds(w, owner, c, ticket) && (slot in w.lanes[c].lease.value.deletable || OldPaste(c, slot))
    case LateWrite(slot, _) => slot in w.abandoned
    case _ => true
  }

  /** The plan connections once kept a pasted secret; any holder may erase it. */
  predicate OldPaste(c: Connection, slot: Slot) {
    (c == OpenaiPlan || c == AnthropicPlan) && slot == PastedSecret(c)
  }

  lemma OldPasteFree(g: Ghosts, w: World, c: Connection, slot: Slot)
    requires Safe(g, w) && OldPaste(c, slot)
    ensures Home(slot) == c && !slot.Minted?
    ensures Unnamed(slot, Get(w.disk.visible, c), Get(w.disk.durable, c), w.lanes[c])
    ensures Unguarded(c, slot, Get(w.disk.visible, c), Get(w.disk.durable, c), w.lanes[c])
  {
    SafeParts(g, w, c);
    hide Synced, Held;
  }

  /** The history an event leaves behind, before the engine acts. */
  ghost function Recorded(s: System, e: Event): Ghosts {
    var w, g := s.world, s.ghosts;
    match e
    case FinishCall(owner, c, ticket, Activate, _) =>
      if Holds(w, owner, c, ticket) && ticket in g.wrote && Some(g.wrote[ticket].0) == w.lanes[c].lease.value.slot
      then g.(sealed := g.sealed[g.wrote[ticket].0 := g.wrote[ticket].1]) else g
    case WriteCall(c, expected, payload, at) =>
      if WriteSnapshot(w, c, expected, payload, at).0 != w && EntryOf(w, c, payload).Some?
      then g.(written := g.written + {EntryOf(w, c, payload).value}) else g
    case ClientWrite(owner, c, ticket, secret) =>
      if Holds(w, owner, c, ticket) && w.lanes[c].lease.value.writable.Some? then
        var slot := w.lanes[c].lease.value.writable.value;
        g.(secrets := g.secrets[slot := secret], wrote := g.wrote[ticket := (slot, secret)])
      else g
    case ClientDelete(_, _, _, slot) => g.(secrets := g.secrets - {slot})
    case LateWrite(slot, secret) => g.(secrets := g.secrets[slot := secret])
    case _ => g
  }

  function Engine(w: World, e: Event): World {
    match e
    case AcquireCall(owner, c, action, expected, fetchTicket) => Acquire(w, owner, c, action, expected, fetchTicket)
    case FinishCall(owner, c, ticket, operation, identity) => Finish(w, owner, c, ticket, operation, identity).0
    case PrepareCall(owner, c, ticket) => PrepareMigration(w, owner, c, ticket).0
    case QueueCleanupCall(owner, c, ticket) => QueueLegacyCleanup(w, owner, c, ticket).0
    case AcknowledgeCall(owner, c, ticket, cleaned) => AcknowledgeCleanup(w, owner, c, ticket, cleaned).0
    case AcquireFetchCall(owner, c) => AcquireFetch(w, owner, c)
    case ReleaseFetchCall(owner, c, ticket) => ReleaseFetch(w, owner, c, ticket)
    case ReadCall(c, expected) => ReadSnapshot(w, c, expected).0
    case WriteCall(c, expected, payload, at) => WriteSnapshot(w, c, expected, payload, at).0
    case UpgradeCall(c, expected, payload, at) => UpgradeSnapshotTimestamp(w, c, expected, payload, at).0
    case ClearCall(c, expected) => ClearSnapshot(w, c, expected).0
    case DetachCall(owner, order) => Detach(w, owner, order)
    case RestartProcess => Restart(w)
    case _ => w
  }

  ghost function After(s: System, e: Event): System { System(Engine(s.world, e), Recorded(s, e)) }

  ghost function Run(s: System, events: seq<Event>): System
    decreases |events|
  {
    if events == [] then s else Run(After(s, events[0]), events[1..])
  }

  ghost predicate Permitted(s: System, events: seq<Event>)
    decreases |events|
  {
    events == [] || (Allowed(s, events[0]) && Permitted(After(s, events[0]), events[1..]))
  }

  ghost predicate Sane(s: System) { Safe(s.ghosts, s.world) && Queued(s.world) }

  /** A first launch: an empty file, any secure store, any storage behaviour to come. */
  function Fresh(faults: nat -> Fault, ids: nat, secrets: map<Slot, Secret>): System {
    System(World(Disk(map[], map[], faults, 0), ids, {}, IdleLanes()), Ghosts(secrets, map[], map[], {}))
  }

  // ---- Client history ----

  /** Histories that agree on every slot but `s`. */
  ghost predicate AgreeBut(g: Ghosts, h: Ghosts, s: Slot) {
    && (forall x :: x != s ==> (x in g.sealed <==> x in h.sealed) && (x in g.sealed ==> g.sealed[x] == h.sealed[x]))
    && (forall x :: x != s ==> (x in g.secrets <==> x in h.secrets) && (x in g.secrets ==> g.secrets[x] == h.secrets[x]))
    && g.written <= h.written
  }

  lemma SoundAgrees(g: Ghosts, h: Ghosts, c: Connection, n: nat, r: Record, s: Slot)
    requires Sound(g, c, n, r) && AgreeBut(g, h, s) && !Names(r, s)
    ensures Sound(h, c, n, r)
  {}

  lemma BaseAgrees(g: Ghosts, h: Ghosts, n: nat, ab: set<Slot>, c: Connection, v: Option<Record>, d: Option<Record>,
      l: Lane, s: Slot)
    requires Base(g, n, ab, c, v, d, l) && AgreeBut(g, h, s) && Unnamed(s, v, d, l)
    ensures Base(h, n, ab, c, v, d, l)
  {
    hide Sound, Names, AgreeBut;
    if v.Some? { SoundAgrees(g, h, c, n, v.value, s); }
    if d.Some? { SoundAgrees(g, h, c, n, d.value, s); }
    if l.prior.Some? && l.prior.value != LegacyState { SoundAgrees(g, h, c, n, l.prior.value, s); }
  }

  /** The one clause of a held lease that looks at the history. */
  predicate WroteHolds(g: Ghosts, lease: Lease) {
    lease.ticket in g.wrote && Some(g.wrote[lease.ticket].0) == lease.slot ==>
      lease.slot.value in g.secrets && g.secrets[lease.slot.value] == g.wrote[lease.ticket].1
  }

  lemma ConnAgrees(g: Ghosts, h: Ghosts, n: nat, ab: set<Slot>, c: Connection, v: Option<Record>, d: Option<Record>,
      l: Lane, s: Slot)
    requires Conn(g, n, ab, c, v, d, l) && AgreeBut(g, h, s) && Unnamed(s, v, d, l)
    requires l.lease.Some? ==> WroteHolds(h, l.lease.value)
    ensures Conn(h, n, ab, c, v, d, l)
  {
    BaseAgrees(g, h, n, ab, c, v, d, l, s);
    hide Base, Synced, Unnamed, Unguarded, Candidate, HeldMode, AgreeBut;
  }

  lemma UnnamedAbroad(g: Ghosts, w: World, c: Connection, s: Slot)
    requires ConnAt(g, w, c) && Home(s) != c
    ensures Unnamed(s, Get(w.disk.visible, c), Get(w.disk.durable, c), w.lanes[c])
  {
    NamedAtHome(g, w.ids, c, Get(w.disk.visible, c), s);
    NamedAtHome(g, w.ids, c, Get(w.disk.durable, c), s);
    var p := w.lanes[c].prior;
    if p.Some? { NamedAtHome(g, w.ids, c, if p.value == LegacyState then None else p, s); }
  }

  /** A change of history confined to one slot that no record of its connection names. */
  lemma HistoryKeeps(g: Ghosts, h: Ghosts, w: World, s: Slot)
    requires Safe(g, w) && Past(h, w) && AgreeBut(g, h, s)
    requires Unnamed(s, Get(w.disk.visible, Home(s)), Get(w.disk.durable, Home(s)), w.lanes[Home(s)])
    requires forall c :: w.lanes[c].lease.Some? ==> WroteHolds(h, w.lanes[c].lease.value)
    ensures Safe(h, w)
  {
    hide Conn, AgreeBut, Unnamed, WroteHolds, Past;
    assert Past(h, w);
    forall c ensures ConnAt(h, w, c) {
      assert ConnAt(g, w, c);
      if c != Home(s) { UnnamedAbroad(g, w, c, s); }
      ConnAgrees(g, h, w.ids, w.abandoned, c, Get(w.disk.visible, c), Get(w.disk.durable, c), w.lanes[c], s);
    }
  }

  /** What a held lease says about its slots. */
  lemma LeaseFacts(g: Ghosts, w: World, c: Connection)
    requires Safe(g, w) && w.lanes[c].lease.Some?
    ensures var lease, v, d := w.lanes[c].lease.value, Get(w.disk.visible, c), Get(w.disk.durable, c);
      && (lease.slot.Some? ==> OwnedMint(c, w.ids, lease.slot.value) && Unnamed(lease.slot.value, v, d, w.lanes[c]))
      && (lease.slot.Some? ==> lease.slot.value !in w.abandoned && lease.slot.value !in lease.deletable)
      && (lease.writable.Some? ==> OwnedMint(c, w.ids, lease.writable.value) && Unnamed(lease.writable.value, v, d, w.lanes[c]))
      && (forall s :: s in lease.deletable ==> Home(s) == c && Unguarded(c, s, v, d, w.lanes[c]) && Unnamed(s, v, d, w.lanes[c]))
      && WroteHolds(g, lease) && lease.ticket < w.ids
      && (lease.writable == lease.slot && lease.slot.Some? ==> c in w.disk.visible)
  {
    SafeParts(g, w, c);
    hide Base, Synced, Core, ValidBackup;
  }

  lemma AllLeaseFacts(g: Ghosts, w: World)
    requires Safe(g, w)
    ensures forall c :: w.lanes[c].lease.Some? ==> WroteHolds(g, w.lanes[c].lease.value)
    ensures forall c :: w.lanes[c].lease.Some? && w.lanes[c].lease.value.slot.Some? ==>
      var slot := w.lanes[c].lease.value.slot.value;
      Home(slot) == c && slot.Minted? && slot !in w.abandoned && slot !in w.lanes[c].lease.value.deletable
  {
    forall c | w.lanes[c].lease.Some? { LeaseFacts(g, w, c); }
  }

  lemma ClientWriteSafe(s: System, e: Event)
    requires Safe(s.ghosts, s.world) && e.ClientWrite? && Allowed(s, e)
    ensures Safe(Recorded(s, e), s.world)
  {
    var w, g, h, c := s.world, s.ghosts, Recorded(s, e), e.connection;
    LeaseFacts(g, w, c);
    AllLeaseFacts(g, w);
    var slot := w.lanes[c].lease.value.writable.value;
    hide ConnAt, Unnamed, Unguarded;
    assert AgreeBut(g, h, slot);
    forall x | w.lanes[x].lease.Some? ensures WroteHolds(h, w.lanes[x].lease.value) {
      assert WroteHolds(g, w.lanes[x].lease.value);
    }
    HistoryKeeps(g, h, w, slot);
  }

  lemma ClientDeleteSafe(s: System, e: Event)
    requires Safe(s.ghosts, s.world) && e.ClientDelete? && Allowed(s, e)
    ensures Safe(Recorded(s, e), s.world)
  {
    var w, g, h, c := s.world, s.ghosts, Recorded(s, e), e.connection;
    LeaseFacts(g, w, c);
    AllLeaseFacts(g, w);
    if OldPaste(c, e.slot) { OldPasteFree(g, w, c, e.slot); }
    hide ConnAt, Unnamed, Unguarded;
    assert AgreeBut(g, h, e.slot);
    forall x | w.lanes[x].lease.Some? ensures WroteHolds(h, w.lanes[x].lease.value) {
      assert WroteHolds(g, w.lanes[x].lease.value);
    }
    HistoryKeeps(g, h, w, e.slot);
  }

  lemma AbandonedUnnamed(g: Ghosts, w: World, s: Slot)
    requires Safe(g, w) && s in w.abandoned
    ensures forall c :: Unnamed(s, Get(w.disk.visible, c), Get(w.disk.durable, c), w.lanes[c])
  {
    forall c ensures Unnamed(s, Get(w.disk.visible, c), Get(w.disk.durable, c), w.lanes[c]) {
      SafeParts(g, w, c);
    }
  }

  lemma LateWriteSafe(s: System, e: Event)
    requires Safe(s.ghosts, s.world) && e.LateWrite? && Allowed(s, e)
    ensures Safe(Recorded(s, e), s.world)
  {
    var w, g, h := s.world, s.ghosts, Recorded(s, e);
    AllLeaseFacts(g, w);
    AbandonedUnnamed(g, w, e.slot);
    hide ConnAt, Unnamed, Unguarded;
    assert AgreeBut(g, h, e.slot);
    forall x | w.lanes[x].lease.Some? ensures WroteHolds(h, w.lanes[x].lease.value) {
      assert WroteHolds(g, w.lanes[x].lease.value);
    }
    HistoryKeeps(g, h, w, e.slot);
  }

  lemma SealSafe(s: System, e: Event)
    requires Safe(s.ghosts, s.world) && e.FinishCall? && Allowed(s, e)
    ensures Safe(Recorded(s, e), s.world) && ReadyToActivateBy(Recorded(s, e), s.world, e)
  {
    var w, g, h, c := s.world, s.ghosts, Recorded(s, e), e.connection;
    AllLeaseFacts(g, w);
    if w.lanes[c].lease.Some? { LeaseFacts(g, w, c); }
    hide ConnAt, Unnamed, Unguarded;
    if h != g {
      var slot := g.wrote[e.ticket].0;
      assert AgreeBut(g, h, slot);
      forall x | w.lanes[x].lease.Some? ensures WroteHolds(h, w.lanes[x].lease.value) {
        assert WroteHolds(g, w.lanes[x].lease.value);
      }
      HistoryKeeps(g, h, w, slot);
    }
  }

  predicate ReadyToActivateBy(h: Ghosts, w: World, e: Event)
    requires e.FinishCall?
  {
    Holds(w, e.owner, e.connection, e.ticket) ==> ReadyToActivate(h, w, e.connection, e.operation)
  }

  lemma LogSafe(g: Ghosts, w: World, x: Entry)
    requires Safe(g, w)
    ensures Safe(g.(written := g.written + {x}), w)
  {
    var h := g.(written := g.written + {x});
    // An id that is not minted yet names no record: any unused slot will do.
    var s := Minted(OpenaiPlan, w.ids);
    AllLeaseFacts(g, w);
    SafeParts(g, w, OpenaiPlan);
    NewSlotUnnamed(g, w.ids, w.abandoned, OpenaiPlan, Get(w.disk.visible, OpenaiPlan), Get(w.disk.durable, OpenaiPlan),
                   w.lanes[OpenaiPlan], s);
    hide ConnAt, Unnamed, Unguarded, Base;
    assert AgreeBut(g, h, s);
    forall c | w.lanes[c].lease.Some? ensures WroteHolds(h, w.lanes[c].lease.value) {
      assert WroteHolds(g, w.lanes[c].lease.value);
    }
    HistoryKeeps(g, h, w, s);
  }

  // ---- One event ----

  predicate OneConnection(e: Event) {
    !e.DetachCall? && !e.RestartProcess? && !e.LateWrite? && !e.UpgradeCall? && !e.ClientWrite? && !e.ClientDelete?
  }

  /** The event cannot move the cancel target of its own connection. */
  predicate KeepsOwnTarget(w: World, e: Event)
    requires OneConnection(e)
  {
    match e
    case AcquireCall(_, _, action, _, _) => action != Delete
    case FinishCall(_, c, _, operation, _) => NeutralFinish(w, operation) && NoDeletes(w.lanes[c].queue)
    case _ => true
  }

  lemma FinishStepped(s: System, e: Event)
    requires Sane(s) && Allowed(s, e) && e.FinishCall?
    ensures Stepped(Recorded(s, e), s.world, Engine(s.world, e), e.connection, KeepsOwnTarget(s.world, e))
  {
    hide Safe, Queued, Stepped, Recorded, Allowed, ReadyToActivate, NeutralFinish;
    SealSafe(s, e);
    var w, h := s.world, Recorded(s, e);
    if Holds(w, e.owner, e.connection, e.ticket) {
      FinishKeeps(h, w, e.owner, e.connection, e.ticket, e.operation, e.identity);
    } else {
      hide Next, Settle;
      NothingStepped(h, w, e.connection, KeepsOwnTarget(w, e));
    }
  }

  lemma WriteStepped(s: System, e: Event)
    requires Sane(s) && Allowed(s, e) && e.WriteCall?
    ensures Stepped(Recorded(s, e), s.world, Engine(s.world, e), e.connection, true)
  {
    var w, g, h, c := s.world, s.ghosts, Recorded(s, e), e.connection;
    hide Safe, Queued, Stepped, State, SoftPersist, EffectiveTime, Same;
    if Engine(w, e) != w {
      WriteOwes(g, w, c, e.expected, e.payload, e.at);
      LogSafe(g, w, EntryOf(w, c, e.payload).value);
      WriteKeeps(h, w, c, e.expected, e.payload, e.at);
    } else {
      NothingStepped(g, w, c, true);
    }
  }

  lemma WriteOwes(g: Ghosts, w: World, c: Connection, expected: Option<Version>, payload: string, at: int)
    requires Safe(g, w) && WriteSnapshot(w, c, expected, payload, at).0 != w
    ensures EntryOf(w, c, payload).Some?
  {
    StateSound(g, w, c);
  }

  lemma EngineStepped(s: System, e: Event)
    requires Sane(s) && Allowed(s, e) && OneConnection(e)
    ensures Stepped(Recorded(s, e), s.world, Engine(s.world, e), e.connection, KeepsOwnTarget(s.world, e))
  {
    hide Safe, Stepped, Orderly, OrderlyFetch;
    var w, g := s.world, s.ghosts;
    match e {
      case FinishCall(_, _, _, _, _) => FinishStepped(s, e);
      case WriteCall(_, _, _, _) => WriteStepped(s, e);
      case AcquireCall(owner, c, action, expected, fetchTicket) => AcquireKeeps(g, w, owner, c, action, expected, fetchTicket);
      case PrepareCall(owner, c, ticket) => MigrateKeeps(g, w, owner, c, ticket);
      case QueueCleanupCall(owner, c, ticket) => QueueCleanupKeeps(g, w, owner, c, ticket);
      case AcknowledgeCall(owner, c, ticket, cleaned) => AcknowledgeStepped(g, w, owner, c, ticket, cleaned);
      case AcquireFetchCall(owner, c) => AcquireFetchKeeps(g, w, owner, c);
      case ReleaseFetchCall(owner, c, ticket) => ReleaseFetchKeeps(g, w, owner, c, ticket);
      case ReadCall(c, expected) => ReadKeeps(g, w, c, expected);
      case ClearCall(c, expected) => ClearKeeps(g, w, c, expected);
    }
  }

  lemma AcknowledgeStepped(g: Ghosts, w: World, owner: Owner, c: Connection, ticket: Id, cleaned: set<Slot>)
    requires Safe(g, w) && (Holds(w, owner, c, ticket) ==> c in w.disk.visible)
    ensures Stepped(g, w, AcknowledgeCleanup(w, owner, c, ticket, cleaned).0, c, true)
  {
    hide Safe, Stepped, State, Unacknowledged, SoftPersist;
    if Holds(w, owner, c, ticket) { AcknowledgeKeeps(g, w, owner, c, ticket, cleaned); } else { NothingStepped(g, w, c, true); }
  }

  lemma HistorySafe(s: System, e: Event)
    requires Sane(s) && Allowed(s, e) && (e.ClientWrite? || e.ClientDelete? || e.LateWrite?)
    ensures Safe(Recorded(s, e), s.world) && Engine(s.world, e) == s.world
  {
    hide Safe, Queued, Allowed, Recorded;
    match e {
      case ClientWrite(_, _, _, _) => ClientWriteSafe(s, e);
      case ClientDelete(_, _, _, _) => ClientDeleteSafe(s, e);
      case LateWrite(_, _) => LateWriteSafe(s, e);
    }
  }

  /** Safety and irrevocability, one event at a time. */
  lemma EventSafe(s: System, e: Event)
    requires Sane(s) && Allowed(s, e)
    ensures Safe(After(s, e).ghosts, After(s, e).world) && Onward(s.world, After(s, e).world)
  {
    hide Safe, Queued, Allowed, Recorded, Onward, Engine;
    var w := s.world;
    if OneConnection(e) {
      EngineStepped(s, e);
      SteppedCalled(Recorded(s, e), w, Engine(w, e), e.connection, KeepsOwnTarget(w, e));
    } else if e.ClientWrite? || e.ClientDelete? || e.LateWrite? {
      HistorySafe(s, e);
      OnwardSame(w);
    } else {
      BroadSafe(s, e);
    }
  }

  lemma OnwardSame(w: World)
    ensures Onward(w, w)
  {}

  lemma BroadSafe(s: System, e: Event)
    requires Sane(s) && Allowed(s, e) && (e.DetachCall? || e.RestartProcess? || e.UpgradeCall?)
    ensures Safe(After(s, e).ghosts, After(s, e).world) && Onward(s.world, After(s, e).world)
  {
    hide Safe, Queued, Onward, Detach, Restart;
    var w, g := s.world, s.ghosts;
    match e {
      case DetachCall(owner, order) => DetachKeeps(g, w, owner, order);
      case RestartProcess => RestartKeeps(g, w);
      case UpgradeCall(c, expected, payload, at) => UpgradeKeeps(g, w, c, expected, payload, at);
    }
  }

  lemma EventQueued(s: System, e: Event)
    requires Sane(s) && Allowed(s, e)
    ensures Queued(After(s, e).world)
  {
    hide Safe, Queued;
    var w, g := s.world, s.ghosts;
    match e {
      case FinishCall(owner, c, ticket, operation, identity) => FinishQueues(w, owner, c, ticket, operation, identity);
      case AcquireCall(owner, c, action, expected, fetchTicket) => AcquireQueues(w, owner, c, action, expected, fetchTicket);
      case PrepareCall(owner, c, ticket) => MigrateQueues(w, owner, c, ticket);
      case AcquireFetchCall(owner, c) => AcquireFetchQueues(w, owner, c);
      case ReleaseFetchCall(owner, c, ticket) => ReleaseFetchQueues(w, owner, c, ticket);
      case DetachCall(owner, order) => DetachQueued(w, owner, order);
      case RestartProcess => RestartQueued(w);
      case _ => SoftQueued(w, e);
    }
  }

  lemma SoftLanes(w: World, e: Event)
    requires e.QueueCleanupCall? || e.AcknowledgeCall? || e.ReadCall? || e.WriteCall? || e.UpgradeCall? || e.ClearCall?
          || e.ClientWrite? || e.ClientDelete? || e.LateWrite?
    ensures Engine(w, e).lanes == w.lanes
  {
    hide State, Commit, Unacknowledged, EffectiveTime, Retire, Barrier, Same, Valid, Holds;
  }

  /** Best-effort calls and client work never touch a lane. */
  lemma SoftQueued(w: World, e: Event)
    requires Queued(w)
    requires e.QueueCleanupCall? || e.AcknowledgeCall? || e.ReadCall? || e.WriteCall? || e.UpgradeCall? || e.ClearCall?
          || e.ClientWrite? || e.ClientDelete? || e.LateWrite?
    ensures Queued(Engine(w, e)) && Engine(w, e).lanes == w.lanes
  {
    hide Queued;
    SoftLanes(w, e);
    hide Engine;
    QuietQueues(w, Engine(w, e));
  }

  lemma EventSane(s: System, e: Event)
    requires Sane(s) && Allowed(s, e)
    ensures Sane(After(s, e)) && Onward(s.world, After(s, e).world)
  {
    hide Safe, Queued, Onward, Allowed, After;
    EventSafe(s, e);
    EventQueued(s, e);
  }

  // ---- Runs ----

  lemma FreshSane(faults: nat -> Fault, ids: nat, secrets: map<Slot, Secret>)
    ensures Sane(Fresh(faults, ids, secrets))
  {
    var w := Fresh(faults, ids, secrets).world;
    forall c ensures w.lanes[c] == IdleLane { IdleAt(c); }
  }

  /** Every reachable state is safe and orderly, and no run ever moves backwards. */
  lemma {:induction false} RunSane(s: System, events: seq<Event>)
    requires Sane(s) && Permitted(s, events)
    ensures Sane(Run(s, events)) && Onward(s.world, Run(s, events).world)
    decreases |events|
  {
    hide Sane, Onward, Allowed, After;
    if events == [] {
      OnwardSame(s.world);
    } else {
      EventSane(s, events[0]);
      RunSane(After(s, events[0]), events[1..]);
      OnwardTwice(s.world, After(s, events[0]).world, Run(s, events).world);
    }
  }
}
