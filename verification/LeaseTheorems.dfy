/** The lease engine's promises, for every connection and every permitted run. */
module LeaseTheorems {
  import opened Wrappers
  import opened CredentialRecords
  import opened LeaseWorld
  import opened Safety
  import opened LeaseSteps
  import opened LeaseCalls
  import opened LeaseDetach
  import opened LeaseQueue
  import opened LeaseRuns

  // ---- Secrets ----

  /** Some record of `c` that a client could be given, now, after a recovery or after a
      restart, names the slot. */
  predicate Restorable(w: World, c: Connection, slot: Slot) {
    || Names(Known(w.disk.visible, c), slot)
    || Names(Known(w.disk.durable, c), slot)
    || (w.lanes[c].prior.Some? && Names(w.lanes[c].prior.value, slot))
  }

  /** From a first launch on, whatever happens: a slot that any stored record could make a
      client read back still holds the secret written under the lease that activated it. */
  lemma SecretsSurvive(faults: nat -> Fault, ids: nat, secrets: map<Slot, Secret>, events: seq<Event>, c: Connection,
      slot: Slot)
    requires Permitted(Fresh(faults, ids, secrets), events)
    requires Restorable(Run(Fresh(faults, ids, secrets), events).world, c, slot)
    ensures Kept(Run(Fresh(faults, ids, secrets), events).ghosts, slot)
  {
    hide Run, Permitted, Fresh, Safe, Queued, Restorable, Kept;
    FreshSane(faults, ids, secrets);
    RunSane(Fresh(faults, ids, secrets), events);
    var s := Run(Fresh(faults, ids, secrets), events);
    RestorableKept(s.ghosts, s.world, c, slot);
  }

  lemma RestorableKept(g: Ghosts, w: World, c: Connection, slot: Slot)
    requires Safe(g, w) && Restorable(w, c, slot)
    ensures Kept(g, slot)
  {
    SafeParts(g, w, c);
    var v, d, p := Get(w.disk.visible, c), Get(w.disk.durable, c), w.lanes[c].prior;
    hide Synced, Held, Sound, Names, Kept;
    if v.Some? && Names(v.value, slot) { SoundKept(g, c, w.ids, v.value, slot); }
    if d.Some? && Names(d.value, slot) { SoundKept(g, c, w.ids, d.value, slot); }
    if p.Some? && Names(p.value, slot) { SoundKept(g, c, w.ids, p.value, slot); }
    LegacyNames(slot);
  }

  lemma SoundKept(g: Ghosts, c: Connection, n: nat, r: Record, slot: Slot)
    requires SoundOrLegacy(g, c, n, r) && Names(r, slot)
    ensures Kept(g, slot)
  {}

  lemma LegacyNames(slot: Slot)
    ensures !Names(LegacyState, slot)
  {}

  /** Some event of the run activates the slot, by the holder of the lease that writes it. */
  ghost predicate ActivatedIn(s: System, events: seq<Event>, slot: Slot)
    decreases |events|
  {
    events != [] && (ActivatesSlot(s.world, events[0], slot) || ActivatedIn(After(s, events[0]), events[1..], slot))
  }

  predicate ActivatesSlot(w: World, e: Event, slot: Slot) {
    && e.FinishCall? && e.operation == Activate && Holds(w, e.owner, e.connection, e.ticket)
    && w.lanes[e.connection].lease.value.slot == Some(slot)
  }

  lemma {:induction false} SealedByActivation(s: System, events: seq<Event>, slot: Slot)
    requires slot in Run(s, events).ghosts.sealed && slot !in s.ghosts.sealed
    ensures ActivatedIn(s, events, slot)
    decreases |events|
  {
    hide Engine;
    if events != [] && !ActivatesSlot(s.world, events[0], slot) {
      assert slot !in After(s, events[0]).ghosts.sealed by { hide WriteSnapshot; }
      SealedByActivation(After(s, events[0]), events[1..], slot);
    }
  }

  /** No cancellation, recovery, detachment or restart makes a record name a slot that the run
      has not activated. */
  lemma NamedSlotsWereActivated(faults: nat -> Fault, ids: nat, secrets: map<Slot, Secret>, events: seq<Event>,
      c: Connection, slot: Slot)
    requires Permitted(Fresh(faults, ids, secrets), events)
    requires Restorable(Run(Fresh(faults, ids, secrets), events).world, c, slot)
    ensures ActivatedIn(Fresh(faults, ids, secrets), events, slot)
  {
    hide Run, Permitted, Restorable, ActivatedIn;
    SecretsSurvive(faults, ids, secrets, events, c, slot);
    SealedByActivation(Fresh(faults, ids, secrets), events, slot);
  }

  /** One event never changes or erases a secret its connection still guards, be it a named
      slot, a bound backup or an installed legacy session. */
  lemma GuardedSecretsUntouched(s: System, e: Event, c: Connection, slot: Slot)
    requires Sane(s) && Allowed(s, e)
    requires Guarded(Known(s.world.disk.visible, c), c, slot)
    requires slot in s.ghosts.secrets
    ensures slot in After(s, e).ghosts.secrets && After(s, e).ghosts.secrets[slot] == s.ghosts.secrets[slot]
  {
    hide Safe, Queued, Engine, Guarded, Known, Get, Allowed;
    if Touches(s.world, e, slot) { UntouchedWhileGuarded(s, e, c, slot); }
    hide WriteSnapshot, Valid;
  }

  /** The events that change what the secure store holds under `slot`. */
  predicate Touches(w: World, e: Event, slot: Slot) {
    match e
    case ClientWrite(_, d, _, _) => w.lanes[d].lease.Some? && w.lanes[d].lease.value.writable == Some(slot)
    case ClientDelete(_, _, _, x) => x == slot
    case LateWrite(x, _) => x == slot
    case _ => false
  }

  lemma UntouchedWhileGuarded(s: System, e: Event, c: Connection, slot: Slot)
    requires Sane(s) && Allowed(s, e) && Guarded(Known(s.world.disk.visible, c), c, slot)
    ensures !Touches(s.world, e, slot)
  {
    var g, w := s.ghosts, s.world;
    hide Safe, Queued, Guarded, Known;
    match e {
      case ClientWrite(_, d, _, _) => WritableElsewhere(g, w, d, c, slot);
      case ClientDelete(_, d, _, x) =>
        DeletableElsewhere(g, w, d, c, slot);
        if OldPaste(d, x) { OldPasteElsewhere(g, w, d, x, c, slot); }
      case LateWrite(x, _) => AbandonedElsewhere(g, w, x, c, slot);
      case _ =>
    }
  }

  lemma WritableElsewhere(g: Ghosts, w: World, d: Connection, c: Connection, slot: Slot)
    requires Safe(g, w) && w.lanes[d].lease.Some? && w.lanes[d].lease.value.writable.Some?
    requires Guarded(Known(w.disk.visible, c), c, slot)
    ensures w.lanes[d].lease.value.writable != Some(slot)
  {
    GuardedHome(g, w, c, slot);
    LeaseFacts(g, w, d);
    hide Guarded, Safe;
  }

  lemma DeletableElsewhere(g: Ghosts, w: World, d: Connection, c: Connection, slot: Slot)
    requires Safe(g, w) && w.lanes[d].lease.Some? && Guarded(Known(w.disk.visible, c), c, slot)
    ensures slot !in w.lanes[d].lease.value.deletable
  {
    GuardedHome(g, w, c, slot);
    LeaseFacts(g, w, d);
    hide Guarded, Safe, Names;
  }

  lemma OldPasteElsewhere(g: Ghosts, w: World, d: Connection, x: Slot, c: Connection, slot: Slot)
    requires Safe(g, w) && OldPaste(d, x) && Guarded(Known(w.disk.visible, c), c, slot)
    ensures x != slot
  {
    GuardedHome(g, w, c, slot);
    OldPasteFree(g, w, d, x);
    hide Guarded, Safe;
  }

  lemma AbandonedElsewhere(g: Ghosts, w: World, x: Slot, c: Connection, slot: Slot)
    requires Safe(g, w) && Guarded(Known(w.disk.visible, c), c, slot)
    ensures x in w.abandoned ==> x != slot
  {
    GuardedHome(g, w, c, slot);
    if x in w.abandoned {
      AbandonedUnnamed(g, w, x);
      assert Unnamed(x, Get(w.disk.visible, c), Get(w.disk.durable, c), w.lanes[c]);
      assert x.Minted?;
    }
    hide Guarded, ConnAt;
  }

  lemma GuardedHome(g: Ghosts, w: World, c: Connection, slot: Slot)
    requires Safe(g, w) && Guarded(Known(w.disk.visible, c), c, slot)
    ensures Home(slot) == c && (Names(Known(w.disk.visible, c), slot) || !slot.Minted?)
    ensures Known(w.disk.visible, c) == OrLegacy(Get(w.disk.visible, c))
  {
    SafeParts(g, w, c);
    hide Synced, Held;
  }

  /** What a lease holder may delete, no record of its connection still needs. */
  lemma OffersAreDisposable(s: System, c: Connection, slot: Slot)
    requires Sane(s) && s.world.lanes[c].lease.Some? && slot in s.world.lanes[c].lease.value.deletable
    ensures !Guarded(Known(s.world.disk.visible, c), c, slot) && !Guarded(Known(s.world.disk.durable, c), c, slot)
    ensures s.world.lanes[c].prior.Some? ==> !Guarded(s.world.lanes[c].prior.value, c, slot)
    ensures s.world.lanes[c].lease.value.slot != Some(slot)
  {
    LeaseFacts(s.ghosts, s.world, c);
  }

  /** An event other than a restart keeps abandoned slots, records and snapshot time. */
  lemma EventAccrues(s: System, e: Event)
    requires Sane(s) && Allowed(s, e) && !e.RestartProcess? && (e.UpgradeCall? ==> HonestUpgrade(s.world, e.connection, e.at))
    ensures Accrues(s.world, After(s, e).world)
  {
    hide Safe, Queued, Allowed, Recorded, Newer, LiveTarget, Onward, Detach;
    var w := s.world;
    if OneConnection(e) {
      hide Engine;
      EngineStepped(s, e);
      SteppedAccrues(Recorded(s, e), w, Engine(w, e), e.connection, KeepsOwnTarget(w, e));
    } else if e.DetachCall? {
      DetachAccrues(s, e);
    } else if e.UpgradeCall? {
      hide UpgradeSnapshotTimestamp, HonestUpgrade;
      UpgradeKeeps(s.ghosts, w, e.connection, e.expected, e.payload, e.at);
      var w1 := UpgradeSnapshotTimestamp(w, e.connection, e.expected, e.payload, e.at).0;
      IdsGrow(w, w1);
      ElsewhereAccrues(w, w1, e.connection);
    } else {
      forall x { SameVisibleNewer(w, w, x); }
    }
  }

  lemma DetachAccrues(s: System, e: Event)
    requires Sane(s) && Allowed(s, e) && e.DetachCall?
    ensures Accrues(s.world, Engine(s.world, e))
  {
    hide Safe, Queued, Detach;
    DetachKeeps(s.ghosts, s.world, e.owner, e.order);
  }

  lemma EventKeepsAbandoned(s: System, e: Event)
    requires Sane(s) && Allowed(s, e) && !e.RestartProcess?
    ensures s.world.abandoned <= After(s, e).world.abandoned
  {
    hide Safe, Queued, Allowed, Recorded, Newer, HonestUpgrade;
    if e.UpgradeCall? {
      hide State, Commit, EffectiveTime, Same;
      UpgradeAbandons(s, e);
    } else {
      EventAccrues(s, e);
    }
  }

  lemma UpgradeAbandons(s: System, e: Event)
    requires e.UpgradeCall?
    ensures After(s, e).world.abandoned == s.world.abandoned
  {
    hide State, Commit, EffectiveTime, Same;
  }

  lemma AbandonedOut(s: System, slot: Slot, c: Connection)
    requires Sane(s) && slot in s.world.abandoned
    ensures var w := s.world;
      && !Names(Known(w.disk.visible, c), slot) && !Names(Known(w.disk.durable, c), slot)
      && (w.lanes[c].lease.Some? ==> w.lanes[c].lease.value.slot != Some(slot))
  {
    AbandonedUnnamed(s.ghosts, s.world, slot);
    AllLeaseFacts(s.ghosts, s.world);
    assert Unnamed(slot, Get(s.world.disk.visible, c), Get(s.world.disk.durable, c), s.world.lanes[c]);
  }

  /** Once its owner is detached, a slot is neither written nor activated again in this process. */
  lemma {:induction false} AbandonedStaysOut(s: System, events: seq<Event>, slot: Slot, c: Connection)
    requires Sane(s) && Permitted(s, events) && slot in s.world.abandoned
    requires forall i :: 0 <= i < |events| ==> !events[i].RestartProcess?
    ensures var w := Run(s, events).world;
      && !Names(Known(w.disk.visible, c), slot) && !Names(Known(w.disk.durable, c), slot)
      && (w.lanes[c].lease.Some? ==> w.lanes[c].lease.value.slot != Some(slot))
    decreases |events|
  {
    hide Sane, Allowed, After;
    if events == [] {
      AbandonedOut(s, slot, c);
    } else {
      EventSane(s, events[0]);
      EventKeepsAbandoned(s, events[0]);
      AbandonedStaysOut(After(s, events[0]), events[1..], slot, c);
    }
  }

  // ---- Versions ----

  predicate Before(v: Option<Version>, n: nat) { v.None? || v.value.epoch.None? || v.value.epoch.value < n }

  lemma CutRejects(w: World, c: Connection, n: nat, v: Option<Version>)
    requires Cut(w, c, n) && Before(v, n)
    ensures Valid(w, c, v) != Success(true)
  {}

  lemma {:induction false} CutRejectsAll(w: World, c: Connection, n: nat,
      versions: seq<(Connection, Option<Version>)>, i: nat)
    requires Cut(w, c, n) && i < |versions| && versions[i].0 == c && Before(versions[i].1, n)
    ensures ValidAll(w, versions) != Success(true)
  {
    hide Valid, Before, Cut;
    if i == 0 {
      CutRejects(w, c, n, versions[0].1);
    } else {
      CutRejectsAll(w, c, n, versions[1..], i - 1);
    }
  }

  /** Behind a durable barrier, a version answered before it is refused by every check for
      the rest of all time: no cancel, detach, refused commit, recovery or restart revives it. */
  lemma StaleVersionsNeverRevive(s: System, events: seq<Event>, c: Connection, n: nat, v: Option<Version>,
      versions: seq<(Connection, Option<Version>)>, payload: string, at: int)
    requires Sane(s) && Permitted(s, events) && Cut(s.world, c, n) && n <= s.world.ids && Before(v, n)
    ensures var w := Run(s, events).world;
      && Valid(w, c, v) != Success(true)
      && ((c, v) in versions ==> ValidAll(w, versions) != Success(true))
      && !(ReadSnapshot(w, c, v).1.Success? && ReadSnapshot(w, c, v).1.value.Some?)
      && WriteSnapshot(w, c, v, payload, at).1 != Success(true) && WriteSnapshot(w, c, v, payload, at).0 == w
  {
    hide Sane, Cut, Run, Permitted, Before, SoftPersist, ClearSnapshot;
    RunSane(s, events);
    var w := Run(s, events).world;
    CutRejects(w, c, n, v);
    if (c, v) in versions {
      var i :| 0 <= i < |versions| && versions[i] == (c, v);
      CutRejectsAll(w, c, n, versions, i);
    }
  }

  /** A granted reconnect or deletion is such a barrier. */
  lemma GrantedBarrierCuts(g: Ghosts, w: World, c: Connection, p: Request)
    requires Safe(g, w) && w.lanes[c].lease.None? && (p.action == Reconnect || p.action == Delete)
    ensures Attempt(w, c, p).lanes[c].lease.Some? ==> Cut(Attempt(w, c, p), c, w.ids)
  {
    hide Safe, ReconnectRecord, DeleteRecord, Remember, Retire;
    if !(Barred(w, c, p) || Ground(w, c).None?) {
      var r := Ground(w, c).value;
      ReconnectPending(r, c, w.ids + 1);
      DeletedEpoch(r, c, w.ids + 1);
      PersistCut(w.(ids := w.ids + 5), c, ReconnectRecord(r, c, w.ids + 1), w.ids);
      PersistCut(w.(ids := w.ids + 4), c, DeleteRecord(r, c, w.ids + 1), w.ids);
      hide Persist, Ground, Cleanup, Elements, ViewOf;
    }
  }

  lemma DeletedEpoch(r: Record, c: Connection, n: Id)
    ensures DeleteRecord(r, c, n).epoch == Some(n + 2)
  {}

  lemma PersistCut(w: World, c: Connection, r: Record, m: nat)
    requires r.epoch.Some? && r.epoch.value >= m
    ensures Persist(w, c, r).1 ==> Cut(Persist(w, c, r).0, c, m)
  {
    CommitShape(w.disk, c, r);
  }

  /** So is a completed report that the secret is missing. */
  lemma MissingCuts(s: System, owner: Owner, c: Connection, ticket: Id, identity: Option<string>)
    requires Sane(s)
    ensures var (w1, out) := Finish(s.world, owner, c, ticket, Missing, identity);
      out.Success? ==> Cut(w1, c, s.world.ids)
  {
    var w, g := s.world, s.ghosts;
    if Holds(w, owner, c, ticket) {
      var w0, lease := WithoutLease(w, c), w.lanes[c].lease.value;
      var (w1, out) := Settle(w0, c, lease, Missing, identity);
      if out.Success? {
        DropCuts(w0, c, lease, identity);
        HeldFits(g, w, c, Missing);
        WithoutLeaseKeeps(g, w, c);
        SettleKeeps(g, w0, c, lease, Missing, identity);
        SettleLane(w0, c, lease, Missing, identity);
        NextKeeps(g, w1, c);
        hide Settle, Next, Safe, Queued, LiveTarget, Cut;
      }
    }
  }

  lemma DropCuts(w: World, c: Connection, lease: Lease, identity: Option<string>)
    requires Settle(w, c, lease, Missing, identity).1.Success?
    ensures Cut(Settle(w, c, lease, Missing, identity).0, c, w.ids)
  {
    var r := State(w, c).value;
    assert DropRecord(r, w.ids).epoch == Some(w.ids + 2);
    PersistCut(w.(ids := w.ids + 3), c, DropRecord(r, w.ids), w.ids);
    hide DropRecord, Persist, State;
  }

  /** The three settlements that drop the record: a missing secret, a confirmation of another
      identity, and an activation that finds the identity changed. */
  predicate Drops(w: World, c: Connection, lease: Lease, operation: Operation, identity: Option<string>) {
    && (lease.fetchTicket.Some? ==> ValidFetch(w, lease.owner, c, lease.fetchTicket.value))
    && State(w, c).Some?
    && var r := State(w, c).value;
       || operation == Missing
       || (operation == Confirm && identity.Some? && identity != r.identity)
       || (operation == Activate && lease.slot.Some? && identity.Some? && |identity.value| == 64
           && (lease.action == Refresh || r.mode == Some(Active)) && identity != r.identity)
  }

  lemma DropSettles(w: World, c: Connection, lease: Lease, operation: Operation, identity: Option<string>)
    requires Drops(w, c, lease, operation, identity)
    ensures var (w1, out) := Settle(w, c, lease, operation, identity);
      && w1 == Persist(w.(ids := w.ids + 3), c, DropRecord(State(w, c).value, w.ids)).0
      && (out.Success? <==> NextFault(w.disk).Saved? && operation != Activate)
  {
    hide DropRecord, ActivateRecord, CancelRecord, State;
  }

  /** Each of them, once saved, is a barrier as well; the activation reports failure all the same. */
  lemma SavedDropCuts(s: System, e: Event)
    requires Sane(s) && Allowed(s, e) && e.FinishCall? && Holds(s.world, e.owner, e.connection, e.ticket)
    requires Drops(s.world, e.connection, s.world.lanes[e.connection].lease.value, e.operation, e.identity)
    requires NextFault(s.world.disk).Saved?
    ensures var (w1, out) := Finish(s.world, e.owner, e.connection, e.ticket, e.operation, e.identity);
      Cut(w1, e.connection, s.world.ids) && (out.Failure? <==> e.operation == Activate)
  {
    var w, c, h := s.world, e.connection, Recorded(s, e);
    var w0, lease := WithoutLease(w, c), w.lanes[c].lease.value;
    SealSafe(s, e);
    StateIgnoresLease(w, c, lease);
    assert Drops(w0, c, lease, e.operation, e.identity) by { hide Settle, Safe, Queued; }
    DropSettles(w0, c, lease, e.operation, e.identity);
    var r' := DropRecord(State(w0, c).value, w0.ids);
    DropKeepsPending(State(w0, c).value, w0.ids);
    PersistCut(w0.(ids := w0.ids + 3), c, r', w.ids);
    hide Safe, Queued, Drops, Allowed, Recorded, State, DropRecord, Cut, Settle, Next, Persist, LiveTarget;
    PersistShape(w0.(ids := w0.ids + 3), c, r');
    HeldFits(h, w, c, e.operation);
    WithoutLeaseKeeps(h, w, c);
    SettleKeeps(h, w0, c, lease, e.operation, e.identity);
    SettleLane(w0, c, lease, e.operation, e.identity);
    var w1 := Settle(w0, c, lease, e.operation, e.identity).0;
    NextKeeps(h, w1, c);
  }

  /** So is the record parked for a vanished writer. */
  lemma DetachedWriterCuts(g: Ghosts, w: World, owner: Owner, c: Connection, rest: seq<Connection>)
    requires Safe(g, w) && w.lanes[c].lease.Some? && w.lanes[c].lease.value.owner == owner
    requires w.lanes[c].lease.value.action != Read && NextFault(w.disk).Saved? && NoRepeats(rest)
    ensures Cut(DetachLeases(w, owner, [c] + rest), c, w.ids)
  {
    hide Safe, State, DetachRecord, Cut, Next, Persist, LiveTarget, Newer, SameElsewhere, Abandon;
    DetachWriterKeeps(g, w, c);
    var w1 := Abandon(w, c);
    var w2 := Persist(w1.(ids := w1.ids + 3), c, DetachRecord(State(w1, c).value, w1.ids)).0;
    ParkedCuts(w, c);
    NextKeeps(g, w2, c);
    WriterDetaches(w, owner, c);
    DetachLeasesKeeps(g, Next(w2, c), owner, rest);
    assert ([c] + rest)[1..] == rest;
  }

  lemma ParkedCuts(w: World, c: Connection)
    requires w.lanes[c].lease.Some? && NextFault(w.disk).Saved? && State(Abandon(w, c), c).Some?
    ensures var w1 := Abandon(w, c);
      Cut(Persist(w1.(ids := w1.ids + 3), c, DetachRecord(State(w1, c).value, w1.ids)).0, c, w.ids)
  {
    hide State, Persist, Cut;
    var w1 := Abandon(w, c);
    var r' := DetachRecord(State(w1, c).value, w1.ids);
    assert r'.epoch == Some(w1.ids + 2);
    PersistShape(w1.(ids := w1.ids + 3), c, r');
    PersistCut(w1.(ids := w1.ids + 3), c, r', w.ids);
    hide LiveTarget, Commit;
  }

  lemma WriterDetaches(w: World, owner: Owner, c: Connection)
    requires w.lanes[c].lease.Some? && w.lanes[c].lease.value.owner == owner && w.lanes[c].lease.value.action != Read
    requires State(Abandon(w, c), c).Some?
    ensures var w1 := Abandon(w, c);
      DetachLease(w, owner, c) == Next(Persist(w1.(ids := w1.ids + 3), c, DetachRecord(State(w1, c).value, w1.ids)).0, c)
  {
    hide State, Persist, Next, DetachRecord;
  }

  /** And a migration prepared over a legacy record. */
  lemma PreparedMigrationCuts(w: World, owner: Owner, c: Connection, ticket: Id)
    requires State(w, c).Some? && State(w, c).value.mode != Some(Active)
    ensures var (w1, out) := PrepareMigration(w, owner, c, ticket); out.Success? ==> Cut(w1, c, w.ids)
  {
    var r := State(w, c).value;
    MigrationPlain(r, c, w.ids);
    hide MigrationRecord, State, ValidBackup, Persist;
    if PrepareMigration(w, owner, c, ticket).1.Success? {
      var s := MigrationSlot(r, c, w.ids);
      var held := Put(w.(ids := w.ids + MigrationIds(r)), c, w.lanes[c].(lease := Some(w.lanes[c].lease.value.(slot := Some(s)))));
      PersistCut(held, c, MigrationRecord(r, c, w.ids), w.ids);
    }
  }

  /** And legacy cleanup queued on a record without a generation. */
  lemma QueuedCleanupCuts(w: World, owner: Owner, c: Connection, ticket: Id)
    requires State(w, c).Some? && State(w, c).value.generation.None?
    ensures var (w1, out) := QueueLegacyCleanup(w, owner, c, ticket); out.Success? ==> Cut(w1, c, w.ids)
  {
    var r := Retire(Barrier(State(w, c).value, Legacy, w.ids), Some(PastedSecret(c)));
    assert r.epoch == Some(w.ids + 2);
    CommitShape(w.disk, c, r);
    hide Commit, State, Retire, Barrier;
  }

  /** And so is a snapshot clear that reports success on a record that is not legacy, with its
      current version or with none. */
  lemma ClearCuts(w: World, c: Connection, v: Option<Version>)
    requires State(w, c).Some? && State(w, c).value.mode != Some(Legacy)
    requires v.Some? ==> Same(State(w, c).value, v, false)
    ensures ClearSnapshot(w, c, v).1.Success? ==> Cut(ClearSnapshot(w, c, v).0, c, w.ids)
  {
    var r := State(w, c).value.(epoch := Some(w.ids), cache := EmptyCache);
    CommitShape(w.disk, c, r);
    hide Commit, Same;
  }

  // ---- Snapshots ----

  /** Whatever `readSnapshot` returns was written under the version's own generation, identity
      and epoch; since every barrier and clear mints a new epoch, none came in between. */
  lemma CachedPayloadWasWritten(s: System, c: Connection, v: Version)
    requires Sane(s)
    ensures var out := ReadSnapshot(s.world, c, Some(v)).1;
      out.Success? && out.value.Some? ==>
        v.generation.Some? && v.identity.Some? && v.epoch.Some?
        && Entry(c, v.generation.value, v.identity.value, v.epoch.value, out.value.value) in s.ghosts.written
  {
    StateReadable(s.ghosts, s.world, c);
    StateSound(s.ghosts, s.world, c);
  }

  /** A saved write is what the next read of the same version returns. */
  lemma WriteThenRead(w: World, c: Connection, v: Option<Version>, payload: string, at: int)
    requires WriteSnapshot(w, c, v, payload, at).1 == Success(true)
    ensures var w1 := WriteSnapshot(w, c, v, payload, at).0; ReadSnapshot(w1, c, v) == (w1, Success(Some(payload)))
  {
    var r := State(w, c).value.(cache := Cache(Some(payload), Some(Number(at)), Some("1"), true));
    CommitShape(w.disk, c, r);
    var w1 := WriteSnapshot(w, c, v, payload, at).0;
    assert Get(w1.disk.visible, c) == Some(r);
    hide EffectiveTime, Commit;
  }

  /** Later epochs first, then later times within one epoch. */
  predicate NotOlder(a: Record, b: Record) {
    a.epoch.Some? && b.epoch.Some?
    && (a.epoch.value < b.epoch.value || (a.epoch == b.epoch && EffectiveTime(a.cache) <= EffectiveTime(b.cache)))
  }

  /** Upgrades quote a time not below the stored one, and a process ends only while the file
      holds a record no older than the visible one. */
  predicate Honest(w: World, e: Event, c: Connection) {
    match e
    case UpgradeCall(x, _, _, at) => x == c ==> HonestUpgrade(w, c, at)
    case RestartProcess => c in w.disk.visible ==> c in w.disk.durable && NotOlder(w.disk.visible[c], w.disk.durable[c])
    case _ => true
  }

  ghost predicate HonestRun(s: System, events: seq<Event>, c: Connection)
    decreases |events|
  {
    events == [] || (Honest(s.world, events[0], c) && HonestRun(After(s, events[0]), events[1..], c))
  }

  /** Whatever refused commits and restarts come in between, the stored record never gets
      older: within one epoch its time never decreases, and no epoch comes back. */
  lemma {:induction false} SnapshotTimeNeverDecreases(s: System, events: seq<Event>, c: Connection)
    requires Sane(s) && Permitted(s, events) && HonestRun(s, events, c) && c in s.world.disk.visible
    ensures var w, w1 := s.world, Run(s, events).world;
      c in w1.disk.visible && NotOlder(w.disk.visible[c], w1.disk.visible[c])
    decreases |events|
  {
    hide Sane, Allowed, After, NotOlder, Honest;
    VisibleEpoch(s, c);
    if events != [] {
      EventSane(s, events[0]);
      EventNotOlder(s, events[0], c);
      SnapshotTimeNeverDecreases(After(s, events[0]), events[1..], c);
      NotOlderTwice(s.world.disk.visible[c], After(s, events[0]).world.disk.visible[c], Run(s, events).world.disk.visible[c]);
    }
  }

  lemma NotOlderTwice(a: Record, b: Record, c: Record)
    requires NotOlder(a, b) && NotOlder(b, c)
    ensures NotOlder(a, c)
  {
    hide EffectiveTime;
  }

  lemma VisibleEpoch(s: System, c: Connection)
    requires Sane(s) && c in s.world.disk.visible
    ensures var r := s.world.disk.visible[c]; r.epoch.Some? && r.epoch.value < s.world.ids && NotOlder(r, r)
  {
    StateReadable(s.ghosts, s.world, c);
    StateSound(s.ghosts, s.world, c);
    hide EffectiveTime;
  }

  lemma EventNotOlder(s: System, e: Event, c: Connection)
    requires Sane(s) && Allowed(s, e) && Honest(s.world, e, c) && c in s.world.disk.visible
    ensures c in After(s, e).world.disk.visible && NotOlder(s.world.disk.visible[c], After(s, e).world.disk.visible[c])
  {
    hide Safe, Queued, Allowed, Recorded, LiveTarget, Onward, Detach, EffectiveTime;
    VisibleEpoch(s, c);
    var w := s.world;
    if e.RestartProcess? {
    } else if e.UpgradeCall? && e.connection != c {
      hide UpgradeSnapshotTimestamp, HonestUpgrade, Newer;
      UpgradeKeeps(s.ghosts, w, e.connection, e.expected, e.payload, e.at);
      assert Get(Engine(w, e).disk.visible, c) == Get(w.disk.visible, c);
    } else {
      hide HonestUpgrade, Engine;
      EventAccrues(s, e);
      assert Newer(w.disk, After(s, e).world.disk, c, w.ids);
    }
  }

  /** From two copies that agree, a newer snapshot written and then the end of the process put
      the stored time back exactly when the commit reached memory and not the file. */
  lemma RestartLowersIff(w: World, c: Connection, v: Option<Version>, payload: string, at: int)
    requires Valid(w, c, v) == Success(true) && Get(w.disk.visible, c) == Get(w.disk.durable, c)
    requires LongMin <= at <= LongMax && EffectiveTime(w.disk.visible[c].cache) < at
    ensures var w1 := WriteSnapshot(w, c, v, payload, at).0; var w2 := Restart(w1);
      && c in w1.disk.visible && c in w2.disk.visible
      && (NotOlder(w1.disk.visible[c], w2.disk.visible[c]) <==> NextFault(w.disk) != Lost(true, false))
      && var before, after := EffectiveTime(w1.disk.visible[c].cache), EffectiveTime(w2.disk.visible[c].cache);
         after < before <==> NextFault(w.disk) == Lost(true, false)
  {
    var r := State(w, c).value.(cache := Cache(Some(payload), Some(Number(at)), Some("1"), true));
    assert EffectiveTime(r.cache) == at && w.disk.visible[c] == State(w, c).value && r.epoch.Some?;
    hide EffectiveTime, Same;
  }

  /** Quoting the stored millisecond's own microseconds never lowers the order; overflow
      counts as the oldest time, below every quote. */
  lemma OwnMicrosecondsAreHonest(w: World, c: Connection, at: int)
    requires LongMin <= at <= LongMax
    requires var cache := Known(w.disk.visible, c).cache;
      !cache.micros && cache.at.Some? && cache.at.value.Number? && cache.at.value.value == at / 1000
    ensures HonestUpgrade(w, c, at)
  {}

  /** An upgrade of a matching legacy payload lowers the order exactly when it quotes less. */
  lemma UpgradeLowersIff(w: World, c: Connection, v: Option<Version>, payload: string, at: int)
    requires LongMin <= at <= LongMax && Valid(w, c, v) == Success(true) && NextFault(w.disk).Saved?
    requires w.disk.visible[c].cache.payload == Some(payload) && !w.disk.visible[c].cache.micros
    ensures c in UpgradeSnapshotTimestamp(w, c, v, payload, at).0.disk.visible
    ensures var before, after := w.disk.visible[c].cache, UpgradeSnapshotTimestamp(w, c, v, payload, at).0.disk.visible[c].cache;
      EffectiveTime(after) < EffectiveTime(before) <==> !HonestUpgrade(w, c, at)
  {
    var r := State(w, c).value;
    assert r == w.disk.visible[c];
    CommitShape(w.disk, c, r.(cache := r.cache.(at := Some(Number(at)), micros := true)));
  }

  /** It never replaces a payload: a newer one makes it report false and change nothing. */
  lemma UpgradeKeepsPayload(w: World, c: Connection, v: Option<Version>, payload: string, at: int)
    ensures var (w1, out) := UpgradeSnapshotTimestamp(w, c, v, payload, at);
      && Known(w1.disk.visible, c).cache.payload == Known(w.disk.visible, c).cache.payload
      && (Known(w.disk.visible, c).cache.payload != Some(payload) ==> w1 == w && out != Success(true))
  {
    if State(w, c).Some? {
      var r := State(w, c).value;
      CommitShape(w.disk, c, r.(cache := r.cache.(at := Some(Number(at)), micros := true)));
      hide Commit, Same;
    }
  }

  // ---- The cancel target ----

  /** Events that leave `c`'s cancel target alone: everything but a deletion, a restart while
      fenced, a vanished writer, and a completion whose commit is saved. */
  ghost predicate Neutral(s: System, e: Event, c: Connection) {
    var w := s.world;
    && NoDeletes(w.lanes[c].queue)
    && match e
       case AcquireCall(_, x, action, _, _) => x == c ==> action != Delete
       case FinishCall(_, x, _, operation, _) => x == c ==> NeutralFinish(w, operation)
       case DetachCall(owner, _) => KeepsTarget(w, owner, c)
       case RestartProcess => !w.lanes[c].fenced
       case _ => true
  }

  lemma EventKeepsTarget(s: System, e: Event, c: Connection)
    requires Sane(s) && Allowed(s, e) && Neutral(s, e, c)
    ensures LiveTarget(After(s, e).world, c) == LiveTarget(s.world, c)
  {
    hide Safe, Queued, Recorded, Newer, LiveTarget, Onward, Detach, Restart, NeutralFinish;
    var w, g := s.world, s.ghosts;
    if OneConnection(e) {
      OwnConnectionTarget(s, e, c);
    } else {
      match e {
        case DetachCall(owner, order) => DetachKeeps(g, w, owner, order);
        case RestartProcess => RestartKeeps(g, w);
        case UpgradeCall(x, v, payload, at) =>
          hide UpgradeSnapshotTimestamp, HonestUpgrade;
          UpgradeKeeps(g, w, x, v, payload, at);
        case _ =>
      }
    }
  }

  lemma OwnConnectionTarget(s: System, e: Event, c: Connection)
    requires Sane(s) && Allowed(s, e) && Neutral(s, e, c) && OneConnection(e)
    ensures LiveTarget(After(s, e).world, c) == LiveTarget(s.world, c)
  {
    hide Safe, Queued, Recorded, Newer, LiveTarget, Onward, NeutralFinish, Engine, Allowed, NoDeletes;
    EngineStepped(s, e);
    assert e.connection == c ==> KeepsOwnTarget(s.world, e);
  }

  ghost predicate NeutralRun(s: System, events: seq<Event>, c: Connection)
    decreases |events|
  {
    events == [] || (Neutral(s, events[0], c) && NeutralRun(After(s, events[0]), events[1..], c))
  }

  /** Any number of superseding reconnects, retries after refused commits, reads, refreshes,
      migrations and cancellations keep what a cancellation restores. */
  lemma {:induction false} CancelTargetKept(s: System, events: seq<Event>, c: Connection)
    requires Sane(s) && Permitted(s, events) && NeutralRun(s, events, c)
    ensures LiveTarget(Run(s, events).world, c) == LiveTarget(s.world, c)
    decreases |events|
  {
    hide Sane, Allowed, After, LiveTarget, Neutral;
    if events != [] {
      EventSane(s, events[0]);
      EventKeepsTarget(s, events[0], c);
      CancelTargetKept(After(s, events[0]), events[1..], c);
    }
  }

  /** A cancellation that reports success answers exactly the target, under the generation
      and epoch of the sign-in it cancels. */
  lemma CancelRestoresTarget(s: System, owner: Owner, c: Connection, ticket: Id, identity: Option<string>)
    requires Sane(s) && Holds(s.world, owner, c, ticket)
    ensures var out := Finish(s.world, owner, c, ticket, CancelSignIn, identity).1;
      out.Success? ==>
        && out.value.generation == Known(s.world.disk.visible, c).generation
        && out.value.epoch == Known(s.world.disk.visible, c).epoch
        && match LiveTarget(s.world, c)
           case SlotTarget(slot, id) =>
             out.value.mode == Some(Active) && out.value.slot == Some(slot) && out.value.identity == Some(id)
           case LegacyTarget => out.value.mode == Some(Legacy) && out.value.slot.None?
           case NoTarget => out.value.mode == Some(Deleted) && out.value.slot.None?
  {
    var w, g := s.world, s.ghosts;
    var lease := w.lanes[c].lease.value;
    var (w1, out) := Settle(WithoutLease(w, c), c, lease, CancelSignIn, identity);
    if out.Success? {
      StateReadable(g, w, c);
      StateSound(g, w, c);
      HeldFits(g, w, c, CancelSignIn);
      var r := State(w, c).value;
      assert State(WithoutLease(w, c), c) == State(w, c);
      assert out.value == CancelRecord(r);
      CancelOutcome(g, c, w.ids, r);
    }
  }

  lemma CancelOutcome(g: Ghosts, c: Connection, n: nat, r: Record)
    requires Sound(g, c, n, r) && r.mode == Some(Pending)
    ensures var out := CancelRecord(r);
      && out.generation == r.generation && out.epoch == r.epoch
      && match TargetOf(r)
         case SlotTarget(slot, id) => out.mode == Some(Active) && out.slot == Some(slot) && out.identity == Some(id)
         case LegacyTarget => out.mode == Some(Legacy) && out.slot.None?
         case NoTarget => out.mode == Some(Deleted) && out.slot.None?
  {}

  // ---- Records and queues ----

  /** From a first launch on, `state` never throws: every stored record is readable, in the
      visible map and in the file a new process would find. */
  lemma RecordsStayReadable(faults: nat -> Fault, ids: nat, secrets: map<Slot, Secret>, events: seq<Event>,
      c: Connection)
    requires Permitted(Fresh(faults, ids, secrets), events)
    ensures var w := Run(Fresh(faults, ids, secrets), events).world;
      && State(w, c).Some?
      && (c in w.disk.durable ==> Readable(w.disk.durable[c]))
      && (c in w.disk.visible ==> PairedPrevious(w.disk.visible[c]))
  {
    hide Run, Permitted, Fresh, Safe, Queued;
    FreshSane(faults, ids, secrets);
    RunSane(Fresh(faults, ids, secrets), events);
    ReadableParts(Run(Fresh(faults, ids, secrets), events), c);
  }

  predicate PairedPrevious(r: Record) { r.previousSlot.Some? <==> r.previousIdentity.Some? }

  lemma ReadableParts(s: System, c: Connection)
    requires Sane(s)
    ensures var w := s.world;
      && State(w, c).Some?
      && (c in w.disk.durable ==> Readable(w.disk.durable[c]))
      && (c in w.disk.visible ==> PairedPrevious(w.disk.visible[c]))
  {
    StateReadable(s.ghosts, s.world, c);
    SafeParts(s.ghosts, s.world, c);
  }

  /** A call about one connection leaves every other connection's record and lane alone; at the
      most it carries the visible record over to the file. */
  lemma CallsAreIsolated(s: System, e: Event, d: Connection)
    requires Sane(s) && Allowed(s, e) && OneConnection(e) && d != e.connection
    ensures Get(After(s, e).world.disk.visible, d) == Get(s.world.disk.visible, d)
    ensures Get(After(s, e).world.disk.durable, d) in {Get(s.world.disk.durable, d), Get(s.world.disk.visible, d)}
    ensures After(s, e).world.lanes[d] == s.world.lanes[d]
  {
    hide Safe, Queued, Recorded, Newer, LiveTarget, Onward, Engine, Allowed;
    EngineStepped(s, e);
    assert FiledOrKept(s.world.disk, After(s, e).world.disk, d);
  }

  /** First come, first served: answers follow request order, waiting requests come after all
      answered ones, and nobody waits for an idle connection. */
  lemma FirstComeFirstServed(s: System, c: Connection, i: nat, j: nat)
    requires Sane(s)
    ensures var l := s.world.lanes[c];
      && (i < j < |l.answers| ==> l.answers[i].request < l.answers[j].request)
      && (i < |l.answers| && j < |l.queue| ==> l.answers[i].request < l.queue[j].number)
      && (i < j < |l.queue| ==> l.queue[i].number < l.queue[j].number)
      && (l.queue != [] ==> l.lease.Some?)
  {
    hide Safe;
    var l := s.world.lanes[c];
    assert Orderly(l);
    var t := Track(l);
    assert i < |l.answers| ==> t[i] == l.answers[i].request;
    assert j < |l.answers| ==> t[j] == l.answers[j].request;
    assert i < |l.queue| ==> t[|l.answers| + i] == l.queue[i].number;
    assert j < |l.queue| ==> t[|l.answers| + j] == l.queue[j].number;
  }

  /** Every request is answered once, waiting, or dropped with its owner: exactly one of them. */
  lemma RequestsAccountedFor(s: System, c: Connection, k: nat)
    requires Sane(s) && k < s.world.lanes[c].arrived
    ensures var l := s.world.lanes[c];
            var answered := exists i :: 0 <= i < |l.answers| && l.answers[i].request == k;
            var waiting := exists j :: 0 <= j < |l.queue| && l.queue[j].number == k;
            var dropped := k in l.dropped;
      (answered && !waiting && !dropped) || (!answered && waiting && !dropped) || (!answered && !waiting && dropped)
  {
    hide Safe;
    var l := s.world.lanes[c];
    assert Orderly(l);
    var t := Track(l);
    forall i | 0 <= i < |t| ensures t[i] == if i < |l.answers| then l.answers[i].request else l.queue[i - |l.answers|].number {}
    if k in t {
      var m :| 0 <= m < |t| && t[m] == k;
      forall i | 0 <= i < |l.answers| && l.answers[i].request == k ensures i == m { assert t[i] == k; }
      forall j | 0 <= j < |l.queue| && l.queue[j].number == k ensures |l.answers| + j == m { assert t[|l.answers| + j] == k; }
    } else {
      forall i | 0 <= i < |l.answers| ensures l.answers[i].request != k { assert t[i] in t; }
      forall j | 0 <= j < |l.queue| ensures l.queue[j].number != k { assert t[|l.answers| + j] in t; }
    }
  }

  /** A network reservation that is over is never valid again, for any owner, in any process. */
  lemma ReleasedReservationsStayDead(s: System, events: seq<Event>, c: Connection, ticket: Id, owner: Owner)
    requires Sane(s) && Permitted(s, events) && DeadFetch(s.world, c, ticket)
    ensures !ValidFetch(Run(s, events).world, owner, c, ticket)
  {
    hide Sane, Run, Permitted, Cut;
    RunSane(s, events);
    assert DeadFetch(Run(s, events).world, c, ticket);
  }

  /** Nor can a finished or lost credential lease ever be used again. */
  lemma FinishedTicketsStayDead(s: System, events: seq<Event>, c: Connection, ticket: Id, owner: Owner)
    requires Sane(s) && Permitted(s, events) && DeadTicket(s.world, c, ticket)
    ensures !Holds(Run(s, events).world, owner, c, ticket)
  {
    hide Sane, Run, Permitted, Cut;
    RunSane(s, events);
    assert DeadTicket(Run(s, events).world, c, ticket);
  }

  // ---- Where the clients' promises are needed ----

  /** Acknowledging on a connection with no record is what would break readability: a saved
      acknowledgement leaves a readable record exactly when there was one. */
  lemma AcknowledgeReadableIff(s: System, owner: Owner, c: Connection, ticket: Id, cleaned: set<Slot>)
    requires Sane(s) && Holds(s.world, owner, c, ticket) && NextFault(s.world.disk).Saved?
    ensures State(AcknowledgeCleanup(s.world, owner, c, ticket, cleaned).0, c).Some? <==> c in s.world.disk.visible
  {
    var w := s.world;
    StateReadable(s.ghosts, w, c);
    StateSound(s.ghosts, w, c);
    var slots := Unacknowledged(State(w, c).value.retired, cleaned, State(w, c).value, c, w.lanes[c].lease.value.slot, w.abandoned);
    var base := if c in w.disk.visible then w.disk.visible[c] else Blank;
    CommitShape(w.disk, c, base.(retired := slots));
    hide Commit, Unacknowledged, Safe, Queued;
  }

  /** Activating on a connection with no record would break it too, as after a refused migration
      commit: a saved activation leaves a readable record exactly when there was one. */
  lemma ActivationReadableIff(s: System, c: Connection, lease: Lease, identity: string)
    requires Sane(s) && lease.slot.Some? && |identity| == 64 && lease.fetchTicket.None? && NextFault(s.world.disk).Saved?
    requires lease.action == Refresh || Known(s.world.disk.visible, c).mode == Some(Active) ==>
      Known(s.world.disk.visible, c).identity == Some(identity)
    ensures var (w1, out) := Settle(s.world, c, lease, Activate, Some(identity));
      out.Success? && (State(w1, c).Some? <==> c in s.world.disk.visible)
  {
    var w := s.world;
    StateReadable(s.ghosts, w, c);
    StateSound(s.ghosts, w, c);
    var r := State(w, c).value;
    var r' := ActivateRecord(r, c, lease.action, lease.slot.value, identity, w.ids);
    ActivateShape(r, c, lease.action, lease.slot.value, identity, w.ids);
    ActivateLifecycle(r, c, lease.action, lease.slot.value, identity, w.ids);
    hide ActivateRecord, Safe, Queued, DropRecord, Known;
    PersistShape(w.(ids := w.ids + 1), c, r');
    hide Persist, LiveTarget, Commit;
    var w1 := Settle(w, c, lease, Activate, Some(identity)).0;
    assert Get(w1.disk.visible, c) == Some(r');
  }

  lemma ActivateLifecycle(r: Record, c: Connection, action: Action, slot: Slot, identity: string, n: Id)
    ensures ActivateRecord(r, c, action, slot, identity, n).lifecycle == r.lifecycle
  {}

  /** While a sign-in is pending, another holder is offered its still unwritten candidate:
      deleting it late, after losing the lease, could erase a secret written meanwhile. */
  lemma PendingCandidateIsOffered(r: Record, c: Connection, abandoned: set<Slot>)
    requires r.mode == Some(Pending) && r.pendingSlot.Some? && r.pendingSlot.value in r.retired
    requires r.pendingSlot.value.Minted? && r.pendingSlot != r.previousSlot && r.slot.None?
    requires r.previousBackupKey != r.pendingSlot
    ensures r.pendingSlot.value in Cleanup(r.retired, r, c, None, abandoned) <==> r.pendingSlot.value !in abandoned
  {
    CleanupOffers(r.retired, r, c, None, abandoned, r.pendingSlot.value);
  }
}
