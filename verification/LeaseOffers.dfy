/** What the answers tell clients, over whole runs: which slots a holder was offered, which
    versions and cached payloads it may still rely on, and how reservations queue. */
module LeaseOffers {
  import opened Wrappers
  import opened CredentialRecords
  import opened LeaseWorld
  import opened Safety
  import opened LeaseSteps
  import opened LeaseCalls
  import opened LeaseDetach
  import opened LeaseQueue
  import opened LeaseRuns
  import opened LeaseTheorems

  // ---- Offered slots ----

  /** A held lease's own grant is the last answer, and all it offered may be deleted under it. */
  predicate Told(l: Lane) {
    l.lease.Some? ==>
      && l.answers != []
      && var a := l.answers[|l.answers| - 1];
         a.Granted? && a.ticket == l.lease.value.ticket && forall s :: s in a.cleanup ==> s in l.lease.value.deletable
  }

  ghost predicate AllTold(w: World) { forall c :: Told(w.lanes[c]) }

  lemma GrantTells(w: World, c: Connection, p: Request, ticket: Id, slot: Option<Slot>, r: Record)
    ensures Told(Grant(w, c, p, ticket, slot, r).lanes[c])
  {
    hide Guarded, ViewOf, LegacyKey, Cleanup;
    var cleanup := Cleanup(r.retired, r, c, slot, w.abandoned);
    forall s | s in cleanup ensures s in Elements(cleanup) && s in Elements(r.retired) {
      CleanupOffers(r.retired, r, c, slot, w.abandoned, s);
      InElements(cleanup, s);
      InElements(r.retired, s);
    }
    hide Elements;
  }

  lemma InElements(slots: seq<Slot>, s: Slot)
    requires s in slots
    ensures s in Elements(slots)
  {
    var i :| 0 <= i < |slots| && slots[i] == s;
  }

  lemma AttemptTells(w: World, c: Connection, p: Request)
    requires w.lanes[c].lease.None?
    ensures Told(Attempt(w, c, p).lanes[c]) && forall x :: x != c ==> Attempt(w, c, p).lanes[x] == w.lanes[x]
  {
    hide AttemptOn, Told, Barred, Ground, Matches;
    AttemptAnswers(w, c, p);
    if !(Barred(w, c, p) || Ground(w, c).None?) { AttemptOnTells(w.(ids := w.ids + 1), c, p, w.ids, Ground(w, c).value); }
    NoLeaseTold(Reply(w, c, Failed(p.number)).lanes[c]);
    NoLeaseTold(Reply(w, c, Declined(p.number)).lanes[c]);
    hide Attempt;
  }

  lemma AttemptOnTells(w: World, c: Connection, p: Request, ticket: Id, r: Record)
    requires w.lanes[c].lease.None?
    ensures Told(AttemptOn(w, c, p, ticket, r).lanes[c])
  {
    hide Persist, Grant, ReconnectRecord, DeleteRecord, RefreshRecord, Told, Matches;
    match p.action {
      case Reconnect =>
        var r' := ReconnectRecord(r, c, w.ids);
        PersistLane(w.(ids := w.ids + 4), c, r');
        var w1 := Persist(w.(ids := w.ids + 4), c, r').0;
        GrantTells(Unfence(w1, c), c, p, ticket, r'.pendingSlot, r');
        NoLeaseTold(Reply(w1, c, Failed(p.number)).lanes[c]);
      case Delete =>
        var r' := DeleteRecord(r, c, w.ids);
        PersistLane(w.(ids := w.ids + 3), c, r');
        var w1 := Persist(w.(ids := w.ids + 3), c, r').0;
        GrantTells(w1, c, p, ticket, None, r');
        NoLeaseTold(Reply(w1, c, Failed(p.number)).lanes[c]);
      case Refresh =>
        var r' := RefreshRecord(r, c, w.ids);
        PersistLane(w.(ids := w.ids + 1), c, r');
        var w1 := Persist(w.(ids := w.ids + 1), c, r').0;
        GrantTells(w1, c, p, ticket, Some(Minted(c, w.ids)), r');
        NoLeaseTold(Reply(w1, c, Failed(p.number)).lanes[c]);
        NoLeaseTold(Reply(w, c, Failed(p.number)).lanes[c]);
      case Read => GrantTells(w, c, p, ticket, None, r);
      case UnknownAction => NoLeaseTold(Reply(w, c, Failed(p.number)).lanes[c]);
      case Complete => GrantTells(w, c, p, ticket, r.pendingSlot, r); NoLeaseTold(Reply(w, c, Failed(p.number)).lanes[c]);
      case Cancel => GrantTells(w, c, p, ticket, r.pendingSlot, r); NoLeaseTold(Reply(w, c, Failed(p.number)).lanes[c]);
    }
  }

  lemma NoLeaseTold(l: Lane)
    requires l.lease.None?
    ensures Told(l)
  {}

  lemma {:induction false} NextTells(w: World, c: Connection)
    requires w.lanes[c].lease.None?
    ensures Told(Next(w, c).lanes[c]) && forall x :: x != c ==> Next(w, c).lanes[x] == w.lanes[x]
    decreases |w.lanes[c].queue|, 0
  {
    hide Told, Attempt, Start;
    var q := w.lanes[c].queue;
    if q == [] { NoLeaseTold(w.lanes[c]); } else { StartTells(Put(w, c, w.lanes[c].(queue := q[1..])), c, q[0]); }
  }

  lemma {:induction false} StartTells(w: World, c: Connection, p: Request)
    requires w.lanes[c].lease.None?
    ensures Told(Start(w, c, p).lanes[c]) && forall x :: x != c ==> Start(w, c, p).lanes[x] == w.lanes[x]
    decreases |w.lanes[c].queue|, 1
  {
    hide Told, Attempt, Next;
    AttemptTells(w, c, p);
    AttemptKeepsQueue(w, c, p);
    var w1 := Attempt(w, c, p);
    if w1.lanes[c].lease.None? { NextTells(w1, c); }
  }

  /** A lane keeps what it told while lease ticket, offers and answers stay. */
  predicate SameTold(a: Lane, b: Lane) {
    && a.answers == b.answers
    && (b.lease.Some? ==>
          a.lease.Some? && a.lease.value.ticket == b.lease.value.ticket && a.lease.value.deletable == b.lease.value.deletable)
  }

  lemma StillTold(w: World, w1: World)
    requires AllTold(w) && forall x :: SameTold(w.lanes[x], w1.lanes[x])
    ensures AllTold(w1)
  {
    forall x ensures Told(w1.lanes[x]) { assert Told(w.lanes[x]) && SameTold(w.lanes[x], w1.lanes[x]); }
  }

  lemma DrainTold(w: World, w1: World, c: Connection)
    requires AllTold(w) && w1.lanes[c].lease.None? && forall x :: x != c ==> w1.lanes[x] == w.lanes[x]
    ensures AllTold(Next(w1, c))
  {
    hide Told, Next;
    NextTells(w1, c);
    forall x ensures Told(Next(w1, c).lanes[x]) { assert Told(w.lanes[x]); }
  }

  lemma AcquireTold(w: World, owner: Owner, c: Connection, action: Action, expected: Option<Version>,
      fetchTicket: Option<Id>)
    requires AllTold(w)
    ensures AllTold(Acquire(w, owner, c, action, expected, fetchTicket))
  {
    hide Start, Told, AllTold;
    var l := w.lanes[c];
    if l.lease.Some? {
      FetchTold(w, Acquire(w, owner, c, action, expected, fetchTicket));
    } else {
      var w1 := Put(w, c, l.(arrived := l.arrived + 1));
      var p := Request(owner, action, expected, fetchTicket, l.arrived);
      StartTells(w1, c, p);
      OneLaneTold(w, Start(w1, c, p), c);
    }
  }

  lemma OneLaneTold(w: World, w1: World, c: Connection)
    requires AllTold(w) && Told(w1.lanes[c]) && forall x :: x != c ==> w1.lanes[x] == w.lanes[x]
    ensures AllTold(w1)
  {
    hide Told;
    forall x ensures Told(w1.lanes[x]) { assert Told(w.lanes[x]); }
  }

  lemma FinishTold(w: World, owner: Owner, c: Connection, ticket: Id, operation: Operation, identity: Option<string>)
    requires AllTold(w)
    ensures AllTold(Finish(w, owner, c, ticket, operation, identity).0)
  {
    hide Next, Settle, AllTold;
    if Holds(w, owner, c, ticket) {
      var lease := w.lanes[c].lease.value;
      SettleLane(WithoutLease(w, c), c, lease, operation, identity);
      SettleElsewhere(WithoutLease(w, c), c, lease, operation, identity);
      DrainTold(w, Settle(WithoutLease(w, c), c, lease, operation, identity).0, c);
    }
  }

  lemma MigrateTold(w: World, owner: Owner, c: Connection, ticket: Id)
    requires AllTold(w)
    ensures AllTold(PrepareMigration(w, owner, c, ticket).0)
  {
    hide State, MigrationRecord, ValidBackup, Persist, PrepareMigration, AllTold;
    var w2 := PrepareMigration(w, owner, c, ticket).0;
    if w2 != w {
      MigrateShape(w, owner, c, ticket);
      var r := State(w, c).value;
      PersistLane(WithoutLease(w, c).(ids := w.ids + MigrationIds(r)), c, MigrationRecord(r, c, w.ids));
      StillTold(w, w2);
    }
  }

  lemma DetachLeaseTold(w: World, owner: Owner, c: Connection)
    requires AllTold(w)
    ensures AllTold(DetachLease(w, owner, c))
  {
    hide Next, Persist, State, DetachRecord, AllTold;
    var l := w.lanes[c];
    if l.lease.Some? && l.lease.value.owner == owner {
      var w1 := Abandon(w, c);
      if l.lease.value.action == Read {
        DrainTold(w, w1, c);
      } else if State(w1, c).None? {
        DrainTold(w, Put(w1, c, w1.lanes[c].(fenced := true)), c);
      } else {
        var w0, r' := w1.(ids := w1.ids + 3), DetachRecord(State(w1, c).value, w1.ids);
        PersistLane(w0, c, r');
        DrainTold(w, Persist(w0, c, r').0, c);
      }
    }
  }

  lemma {:induction false} DetachLeasesTold(w: World, owner: Owner, order: seq<Connection>)
    requires AllTold(w)
    ensures AllTold(DetachLeases(w, owner, order))
    decreases |order|
  {
    hide AllTold, DetachLease;
    if order != [] {
      DetachLeaseTold(w, owner, order[0]);
      DetachLeasesTold(DetachLease(w, owner, order[0]), owner, order[1..]);
    }
  }

  lemma {:induction false} DetachFetchesTold(w: World, owner: Owner, order: seq<Connection>)
    requires AllTold(w)
    ensures AllTold(DetachFetches(w, owner, order))
    decreases |order|
  {
    hide AllTold;
    if order != [] {
      var f := w.lanes[order[0]].fetch.lease;
      if f.Some? && f.value.owner == owner {
        FetchTold(w, ReleaseFetch(w, owner, order[0], f.value.ticket));
        DetachFetchesTold(ReleaseFetch(w, owner, order[0], f.value.ticket), owner, order[1..]);
      } else {
        DetachFetchesTold(w, owner, order[1..]);
      }
    }
  }

  lemma FetchTold(w: World, w1: World)
    requires AllTold(w) && forall x :: w1.lanes[x].lease == w.lanes[x].lease && w1.lanes[x].answers == w.lanes[x].answers
    ensures AllTold(w1)
  {
    hide AllTold;
    forall x ensures SameTold(w.lanes[x], w1.lanes[x]) {}
    StillTold(w, w1);
  }

  lemma DetachTold(w: World, owner: Owner, order: seq<Connection>)
    requires AllTold(w)
    ensures AllTold(Detach(w, owner, order))
  {
    hide AllTold, DetachLeases, DetachFetches, Without, Gone;
    var a := DropAllFetchQueues(w, owner);
    FetchTold(w, a);
    DetachFetchesTold(a, owner, order);
    var b := DetachFetches(a, owner, order);
    FetchTold(b, DropAllQueues(b, owner));
    DetachLeasesTold(DropAllQueues(b, owner), owner, order);
  }

  lemma EventTold(s: System, e: Event)
    requires AllTold(s.world)
    ensures AllTold(After(s, e).world)
  {
    hide AllTold;
    var w := s.world;
    match e {
      case AcquireCall(owner, c, action, expected, fetchTicket) => AcquireTold(w, owner, c, action, expected, fetchTicket);
      case FinishCall(owner, c, ticket, operation, identity) => FinishTold(w, owner, c, ticket, operation, identity);
      case PrepareCall(owner, c, ticket) => MigrateTold(w, owner, c, ticket);
      case AcquireFetchCall(owner, c) =>
        hide StartFetch;
        FetchTold(w, AcquireFetch(w, owner, c)) by { AcquireFetchLanes(w, owner, c); }
      case ReleaseFetchCall(owner, c, ticket) => ReleaseFetchTold(w, owner, c, ticket);
      case DetachCall(owner, order) => DetachTold(w, owner, order);
      case RestartProcess => RestartTold(w);
      case _ => SoftLanes(w, e); hide Engine; FetchTold(w, Engine(w, e));
    }
  }

  lemma AcquireFetchLanes(w: World, owner: Owner, c: Connection)
    ensures forall x :: AcquireFetch(w, owner, c).lanes[x] == w.lanes[x].(fetch := AcquireFetch(w, owner, c).lanes[x].fetch)
  {}

  lemma ReleaseFetchTold(w: World, owner: Owner, c: Connection, ticket: Id)
    requires AllTold(w)
    ensures AllTold(ReleaseFetch(w, owner, c, ticket))
  {
    hide AllTold;
    FetchTold(w, ReleaseFetch(w, owner, c, ticket));
  }

  lemma RestartTold(w: World)
    ensures AllTold(Restart(w))
  {
    forall c ensures Told(Restart(w).lanes[c]) { IdleAt(c); }
  }

  lemma {:induction false} RunTold(s: System, events: seq<Event>)
    requires AllTold(s.world)
    ensures AllTold(Run(s, events).world)
    decreases |events|
  {
    hide AllTold, After;
    if events != [] {
      EventTold(s, events[0]);
      RunTold(After(s, events[0]), events[1..]);
    }
  }

  /** From a first launch on: no slot offered by the grant of a held lease is named, restorable
      or otherwise guarded by the visible record, the durable one, or the one a recovery
      would return to; nor is it the slot the holder writes. */
  lemma OffersStayDisposable(faults: nat -> Fault, ids: nat, secrets: map<Slot, Secret>, events: seq<Event>,
      c: Connection, slot: Slot)
    requires Permitted(Fresh(faults, ids, secrets), events)
    ensures var w := Run(Fresh(faults, ids, secrets), events).world; var l := w.lanes[c];
      l.lease.Some? ==>
        && l.answers != [] && l.answers[|l.answers| - 1].Granted? && l.answers[|l.answers| - 1].ticket == l.lease.value.ticket
        && (slot in l.answers[|l.answers| - 1].cleanup ==>
              && !Guarded(Known(w.disk.visible, c), c, slot) && !Guarded(Known(w.disk.durable, c), c, slot)
              && (l.prior.Some? ==> !Guarded(l.prior.value, c, slot)) && l.lease.value.slot != Some(slot))
  {
    hide Run, Permitted, Sane, Guarded, Known;
    FreshSane(faults, ids, secrets);
    var start := Fresh(faults, ids, secrets);
    RunSane(start, events);
    forall x ensures Told(start.world.lanes[x]) { IdleAt(x); }
    RunTold(start, events);
    var s := Run(start, events);
    assert Told(s.world.lanes[c]);
    if s.world.lanes[c].lease.Some? && slot in s.world.lanes[c].lease.value.deletable { OffersAreDisposable(s, c, slot); }
  }

  // ---- Versions and payloads ----

  /** The version of a record that can be read now was answered before every id still to come:
      the next barrier cuts it off. */
  lemma CurrentVersionsAreBefore(s: System, c: Connection)
    requires Sane(s)
    ensures State(s.world, c).Some? && Before(Some(VersionOf(State(s.world, c).value)), s.world.ids)
  {
    StateReadable(s.ghosts, s.world, c);
    StateSound(s.ghosts, s.world, c);
  }

  /** A token refresh that succeeds keeps the cached payload readable under the same version,
      up to whatever the waiting requests then do. */
  lemma RefreshKeepsPayload(s: System, owner: Owner, c: Connection, ticket: Id, identity: Option<string>,
      v: Option<Version>, payload: string)
    requires Sane(s) && Holds(s.world, owner, c, ticket) && s.world.lanes[c].lease.value.action == Refresh
    requires ReadSnapshot(s.world, c, v) == (s.world, Success(Some(payload)))
    ensures var (w1, out) := Settle(WithoutLease(s.world, c), c, s.world.lanes[c].lease.value, Activate, identity);
      && Finish(s.world, owner, c, ticket, Activate, identity) == (Next(w1, c), out)
      && (out.Success? ==> ReadSnapshot(w1, c, v) == (w1, Success(Some(payload))))
  {
    var w := s.world;
    var w0, lease := WithoutLease(w, c), w.lanes[c].lease.value;
    var (w1, out) := Settle(w0, c, lease, Activate, identity);
    StateReadable(s.ghosts, w, c);
    var r := State(w, c).value;
    assert State(w0, c) == State(w, c);
    hide Next;
    if out.Success? {
      ActivateShape(r, c, lease.action, lease.slot.value, identity.value, w0.ids);
      RefreshSettles(w0, c, lease, identity);
      var r' := ActivateRecord(r, c, lease.action, lease.slot.value, identity.value, w0.ids);
      hide ActivateRecord, Settle, Persist, Safe, Queued, ClearSnapshot;
      assert Get(w1.disk.visible, c) == Some(r') && w1.lanes[c].fenced == w.lanes[c].fenced;
      PayloadStays(w, w1, c, v, payload, r, r');
    }
  }

  /** So does the commit with which a refresh is granted. */
  lemma RefreshGrantKeepsPayload(s: System, c: Connection, p: Request, v: Option<Version>, payload: string)
    requires Sane(s) && s.world.lanes[c].lease.None? && p.action == Refresh
    requires ReadSnapshot(s.world, c, v) == (s.world, Success(Some(payload)))
    ensures var w1 := Attempt(s.world, c, p); w1.lanes[c].lease.Some? ==> ReadSnapshot(w1, c, v) == (w1, Success(Some(payload)))
  {
    var w := s.world;
    StateReadable(s.ghosts, w, c);
    RefreshGrantShape(w, c, p);
    hide Safe, Queued, Attempt, ReadSnapshot, RefreshRecord;
    var w1 := Attempt(w, c, p);
    if w1.lanes[c].lease.Some? {
      var r, r' := State(w, c).value, RefreshRecord(State(w, c).value, c, w.ids + 1);
      assert r' == r.(retired := r'.retired) by { RefreshOnlyRetires(r, c, w.ids + 1); }
      PayloadReadable(w, c, v, payload);
      PayloadStays(w, w1, c, v, payload, r, r');
    }
  }

  lemma PayloadReadable(w: World, c: Connection, v: Option<Version>, payload: string)
    requires ReadSnapshot(w, c, v) == (w, Success(Some(payload)))
    ensures State(w, c).Some? && Readable(State(w, c).value) && State(w, c).value.mode == Some(Active)
  {
    hide ClearSnapshot;
  }

  lemma RefreshOnlyRetires(r: Record, c: Connection, n: Id)
    ensures RefreshRecord(r, c, n) == r.(retired := RefreshRecord(r, c, n).retired)
  {}

  lemma RefreshOnShape(w: World, c: Connection, p: Request, ticket: Id, r: Record)
    requires w.lanes[c].lease.None? && p.action == Refresh
    ensures var w1 := AttemptOn(w, c, p, ticket, r);
      w1.lanes[c].lease.Some? ==>
        Get(w1.disk.visible, c) == Some(RefreshRecord(r, c, w.ids)) && w1.lanes[c].fenced == w.lanes[c].fenced
  {
    var w0, r' := w.(ids := w.ids + 1), RefreshRecord(r, c, w.ids);
    PersistShape(w0, c, r');
    hide RefreshRecord, Cleanup, Elements, ViewOf, Persist, LiveTarget, Commit;
  }

  lemma RefreshGrantShape(w: World, c: Connection, p: Request)
    requires w.lanes[c].lease.None? && p.action == Refresh && State(w, c).Some?
    ensures var w1 := Attempt(w, c, p);
      w1.lanes[c].lease.Some? ==>
        Get(w1.disk.visible, c) == Some(RefreshRecord(State(w, c).value, c, w.ids + 1)) && w1.lanes[c].fenced == w.lanes[c].fenced
  {
    hide RefreshRecord, State, Matches, AttemptOn, Reply, ValidFetch;
    RefreshOnShape(w.(ids := w.ids + 1), c, p, w.ids, State(w, c).value);
    ReplyLane(w, c, Failed(p.number));
    ReplyLane(w, c, Declined(p.number));
  }

  lemma ReplyLane(w: World, c: Connection, a: Answer)
    ensures Reply(w, c, a).lanes[c].lease == w.lanes[c].lease
  {
  }

  /** A refresh, or any activation over an active record, that finds the identity changed drops
      the payload with the record, as a missing secret and another confirmed identity do. */
  lemma ChangedIdentityDropsPayload(w: World, c: Connection, lease: Lease, operation: Operation,
      identity: Option<string>)
    requires Drops(w, c, lease, operation, identity) && NextFault(w.disk).Saved?
    ensures var w1 := Settle(w, c, lease, operation, identity).0;
      c in w1.disk.visible && w1.disk.visible[c].cache == EmptyCache && w1.disk.visible[c].mode == Some(Deleted)
  {
    DropSettles(w, c, lease, operation, identity);
    var r' := DropRecord(State(w, c).value, w.ids);
    assert r'.cache == EmptyCache && r'.mode == Some(Deleted);
    PersistShape(w.(ids := w.ids + 3), c, r');
    hide Settle, Drops, DropRecord, Persist, LiveTarget, Commit;
  }

  lemma RefreshSettles(w: World, c: Connection, lease: Lease, identity: Option<string>)
    requires lease.action == Refresh && Settle(w, c, lease, Activate, identity).1.Success?
    ensures lease.slot.Some? && identity.Some? && State(w, c).Some? && identity == State(w, c).value.identity
    ensures var r' := ActivateRecord(State(w, c).value, c, lease.action, lease.slot.value, identity.value, w.ids);
            var w1 := Settle(w, c, lease, Activate, identity).0;
      Get(w1.disk.visible, c) == Some(r') && w1.lanes[c] == w.lanes[c]
  {
    hide ActivateRecord, State, DropRecord, ValidFetch;
  }

  lemma PayloadStays(w: World, w1: World, c: Connection, v: Option<Version>, payload: string, r: Record, r': Record)
    requires State(w, c) == Some(r) && Get(w1.disk.visible, c) == Some(r') && w1.lanes[c].fenced == w.lanes[c].fenced
    requires r'.mode == r.mode && r'.generation == r.generation && r'.epoch == r.epoch && r'.identity == r.identity
    requires r'.cache == r.cache
    requires r.lifecycle && r'.lifecycle && r'.slot.Some? && r'.revision.Some?
    requires ReadSnapshot(w, c, v) == (w, Success(Some(payload)))
    ensures ReadSnapshot(w1, c, v) == (w1, Success(Some(payload)))
  {
    hide ClearSnapshot;
  }

  /** A granted reconnect or deletion, and a finished cancellation, leave no cached payload. */
  lemma BarriersDropPayloads(s: System, c: Connection, p: Request)
    requires Sane(s) && s.world.lanes[c].lease.None? && (p.action == Reconnect || p.action == Delete)
    ensures var w1 := Attempt(s.world, c, p);
      w1.lanes[c].lease.Some? ==> c in w1.disk.visible && w1.disk.visible[c].cache == EmptyCache
  {
    hide Safe, Queued, ReconnectRecord, DeleteRecord, Ground;
    var w := s.world;
    if !(Barred(w, c, p) || Ground(w, c).None?) {
      var r := Ground(w, c).value;
      EmptiedByReconnect(r, c, w.ids + 1);
      EmptiedByDelete(r, c, w.ids + 1);
      CommitShape(w.disk, c, ReconnectRecord(r, c, w.ids + 1));
      CommitShape(w.disk, c, DeleteRecord(r, c, w.ids + 1));
      hide Commit, Cleanup, Elements, ViewOf, Matches, Barred;
    }
  }

  lemma EmptiedByReconnect(r: Record, c: Connection, n: Id)
    ensures ReconnectRecord(r, c, n).cache == EmptyCache
  {
    hide Remember;
  }

  lemma EmptiedByDelete(r: Record, c: Connection, n: Id)
    ensures DeleteRecord(r, c, n).cache == EmptyCache
  {}

  lemma CancelDropsPayload(s: System, owner: Owner, c: Connection, ticket: Id, identity: Option<string>)
    requires Sane(s)
    ensures var out := Finish(s.world, owner, c, ticket, CancelSignIn, identity).1;
      out.Success? ==> out.value.cache == EmptyCache
  {
    var w, g := s.world, s.ghosts;
    if Holds(w, owner, c, ticket) {
      var lease := w.lanes[c].lease.value;
      if Settle(WithoutLease(w, c), c, lease, CancelSignIn, identity).1.Success? {
        StateReadable(g, w, c);
        StateSound(g, w, c);
        HeldFits(g, w, c, CancelSignIn);
        assert State(WithoutLease(w, c), c) == State(w, c);
        CancelledCache(g, c, w.ids, State(w, c).value);
      }
    }
  }

  lemma CancelledCache(g: Ghosts, c: Connection, n: nat, r: Record)
    requires Sound(g, c, n, r) && r.mode == Some(Pending)
    ensures CancelRecord(r).cache == EmptyCache
  {}

  // ---- Reservations ----

  /** Reservations are granted in the order they were asked for, and nobody waits for an idle
      one. */
  lemma ReservationsInOrder(s: System, c: Connection, i: nat, j: nat)
    requires Sane(s)
    ensures var f := s.world.lanes[c].fetch;
      && (i < j < |f.answers| ==> f.answers[i].request < f.answers[j].request)
      && (i < |f.answers| && j < |f.queue| ==> f.answers[i].request < f.queue[j].number)
      && (i < j < |f.queue| ==> f.queue[i].number < f.queue[j].number)
      && (f.queue != [] ==> f.lease.Some?)
  {
    hide Safe, Orderly;
    var f := s.world.lanes[c].fetch;
    assert OrderlyFetch(f);
    var t := FetchTrack(f);
    assert i < |f.answers| ==> t[i] == f.answers[i].request;
    assert j < |f.answers| ==> t[j] == f.answers[j].request;
    assert i < |f.queue| ==> t[|f.answers| + i] == f.queue[i].number;
    assert j < |f.queue| ==> t[|f.answers| + j] == f.queue[j].number;
  }

  /** Every reservation request is granted once, waiting, or dropped with its owner: exactly
      one of them. */
  lemma ReservationsAccountedFor(s: System, c: Connection, k: nat)
    requires Sane(s) && k < s.world.lanes[c].fetch.arrived
    ensures var f := s.world.lanes[c].fetch;
            var granted := exists i :: 0 <= i < |f.answers| && f.answers[i].request == k;
            var waiting := exists j :: 0 <= j < |f.queue| && f.queue[j].number == k;
            var dropped := k in f.dropped;
      (granted && !waiting && !dropped) || (!granted && waiting && !dropped) || (!granted && !waiting && dropped)
  {
    hide Safe, Orderly;
    var f := s.world.lanes[c].fetch;
    assert OrderlyFetch(f);
    var t := FetchTrack(f);
    forall i | 0 <= i < |t| ensures t[i] == if i < |f.answers| then f.answers[i].request else f.queue[i - |f.answers|].number {}
    if k in t {
      var m :| 0 <= m < |t| && t[m] == k;
      forall i | 0 <= i < |f.answers| && f.answers[i].request == k ensures i == m { assert t[i] == k; }
      forall j | 0 <= j < |f.queue| && f.queue[j].number == k ensures |f.answers| + j == m { assert t[|f.answers| + j] == k; }
    } else {
      forall i | 0 <= i < |f.answers| ensures f.answers[i].request != k { assert t[i] in t; }
      forall j | 0 <= j < |f.queue| ensures f.queue[j].number != k { assert t[|f.answers| + j] in t; }
    }
  }
}
