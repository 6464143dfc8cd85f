/** The same guarantees for each public call of the engine. */
module LeaseCalls {
  import opened Wrappers
  import opened CredentialRecords
  import opened LeaseWorld
  import opened Safety
  import opened LeaseSteps

  /** A call's effect on the whole process; `neutral(c)` says it keeps `c`'s cancel target. */
  ghost predicate Called(g: Ghosts, w: World, w1: World) {
    Safe(g, w1) && Onward(w, w1)
  }

  lemma SteppedCalled(g: Ghosts, w: World, w1: World, c: Connection, keeps: bool)
    requires Stepped(g, w, w1, c, keeps)
    ensures Called(g, w, w1) && SameElsewhere(w, w1, c) && (keeps ==> LiveTarget(w1, c) == LiveTarget(w, c))
  {
    hide Safe, Onward, SameElsewhere, LiveTarget;
  }

  lemma OnwardTwice(w: World, w1: World, w2: World)
    requires Onward(w, w1) && Onward(w1, w2)
    ensures Onward(w, w2)
  {
    hide Cut;
  }

  /** Lanes that agree on what safety looks at. */
  predicate SameHold(a: Lane, b: Lane) {
    a.lease == b.lease && a.fenced == b.fenced && a.prior == b.prior && a.fetch.lease == b.fetch.lease
  }

  lemma SameHoldKeeps(g: Ghosts, w: World, w1: World)
    requires Safe(g, w) && w1.disk == w.disk && w1.ids == w.ids && w1.abandoned == w.abandoned
    requires forall x :: SameHold(w.lanes[x], w1.lanes[x])
    ensures Called(g, w, w1) && forall x :: LiveTarget(w1, x) == LiveTarget(w, x)
  {
    hide TargetOf;
    forall x ensures ConnAt(g, w1, x) {
      assert ConnAt(g, w, x) && SameHold(w.lanes[x], w1.lanes[x]);
      SameHoldConn(g, w.ids, w.abandoned, x, Get(w.disk.visible, x), Get(w.disk.durable, x), w.lanes[x], w1.lanes[x]);
    }
    forall x, t: Id | DeadTicket(w, x, t) ensures DeadTicket(w1, x, t) { assert SameHold(w.lanes[x], w1.lanes[x]); }
    forall x, t: Id | DeadFetch(w, x, t) ensures DeadFetch(w1, x, t) { assert SameHold(w.lanes[x], w1.lanes[x]); }
    forall x ensures LiveTarget(w1, x) == LiveTarget(w, x) { assert SameHold(w.lanes[x], w1.lanes[x]); }
  }

  lemma SameHoldConn(g: Ghosts, n: nat, ab: set<Slot>, c: Connection, v: Option<Record>, d: Option<Record>, a: Lane,
      b: Lane)
    requires Conn(g, n, ab, c, v, d, a) && SameHold(a, b)
    ensures Conn(g, n, ab, c, v, d, b)
  {
    hide Sound, Names, Guarded, HeldMode, SoundOrLegacy, Owned, Core;
  }

  // ---- acquire ----

  lemma AcquireKeeps(g: Ghosts, w: World, owner: Owner, c: Connection, action: Action, expected: Option<Version>,
      fetchTicket: Option<Id>)
    requires Safe(g, w)
    requires w.lanes[c].lease.None? ==> w.lanes[c].queue == []
    ensures var w1 := Acquire(w, owner, c, action, expected, fetchTicket);
      Stepped(g, w, w1, c, action != Delete)
  {
    hide Safe, Stepped, Start;
    var l := w.lanes[c];
    if l.lease.Some? {
      var w1 := Acquire(w, owner, c, action, expected, fetchTicket);
      SameConn(g, w, w1, c);
      StillStepped(g, w, w1, c, action != Delete);
    } else {
      AcquireFreeKeeps(g, w, c, Request(owner, action, expected, fetchTicket, l.arrived));
    }
  }

  lemma AcquireFreeKeeps(g: Ghosts, w: World, c: Connection, p: Request)
    requires Safe(g, w) && w.lanes[c].lease.None? && w.lanes[c].queue == []
    ensures Stepped(g, w, Start(Put(w, c, w.lanes[c].(arrived := w.lanes[c].arrived + 1)), c, p), c, p.action != Delete)
  {
    hide Safe, Stepped, Start;
    var w1 := Put(w, c, w.lanes[c].(arrived := w.lanes[c].arrived + 1));
    SameConn(g, w, w1, c);
    assert Safe(g, w1) by { SteppedSafe(g, w, w1, c, true); }
    StartKeeps(g, w1, c, p);
    SteppedTwice(g, w, w1, Start(w1, c, p), c, true, p.action != Delete && NoDeletes([]));
  }

  lemma SteppedSafe(g: Ghosts, w: World, w1: World, c: Connection, keeps: bool)
    requires Stepped(g, w, w1, c, keeps)
    ensures Safe(g, w1)
  {
    hide Safe, Onward, SameElsewhere, LiveTarget, Newer;
  }

  // ---- finish ----

  lemma WithoutLeaseKeeps(g: Ghosts, w: World, c: Connection)
    requires Safe(g, w)
    ensures Stepped(g, w, WithoutLease(w, c), c, true)
  {
    hide Base, Synced, Held, TargetOf;
    forall x ensures ConnAt(g, WithoutLease(w, c), x) {
      assert ConnAt(g, w, x);
      if x == c { BaseIgnoresLease(g, w, c); }
    }
  }

  lemma BaseIgnoresLease(g: Ghosts, w: World, c: Connection)
    requires ConnAt(g, w, c)
    ensures BaseAt(g, WithoutLease(w, c), c)
    ensures Synced(w.abandoned, Get(w.disk.visible, c), Get(w.disk.durable, c), WithoutLease(w, c).lanes[c])
  {
    hide Sound, Names, Core, SoundOrLegacy;
  }

  /** What the finished lease must still promise when its client activates or cancels. */
  ghost predicate FitToSettle(g: Ghosts, w: World, c: Connection, lease: Lease, operation: Operation) {
    && (w.lanes[c].fenced ==> Known(w.disk.visible, c).pendingSlot.None?)
    && (operation == Activate && lease.slot.Some? ==>
          OwnedMint(c, w.ids, lease.slot.value) && lease.slot.value !in w.abandoned
          && Kept(g, lease.slot.value) && c in w.disk.visible
          && (lease.action == Refresh ==> w.disk.visible[c].mode == Some(Active)))
    && (operation == CancelSignIn && lease.action == Cancel ==>
          c in w.disk.visible && w.disk.visible[c].mode == Some(Pending) && !w.lanes[c].fenced)
  }

  lemma StateSound(g: Ghosts, w: World, c: Connection)
    requires Safe(g, w) && State(w, c).Some?
    ensures var r := State(w, c).value;
      && r == OrLegacy(Get(w.disk.visible, c)) && r == Known(w.disk.visible, c)
      && SoundOrLegacy(g, c, w.ids, r) && (c in w.disk.visible ==> Sound(g, c, w.ids, r) && r == w.disk.visible[c])
      && (forall s :: s in w.abandoned ==> !Names(r, s))
      && (!w.lanes[c].fenced ==> forall s :: s in w.abandoned ==> r.pendingSlot != Some(s))
      && (!w.lanes[c].fenced ==> w.lanes[c].prior.None? && TargetOf(r) == LiveTarget(w, c))
  {
    hide Sound, TargetOf, Held, Core;
    SafeParts(g, w, c);
  }

  /** In a safe state every stored record is readable, so `state` never throws. */
  lemma StateReadable(g: Ghosts, w: World, c: Connection)
    requires Safe(g, w)
    ensures State(w, c).Some?
  {
    SafeParts(g, w, c);
  }

  lemma DropKeepsPending(r: Record, n: Id)
    ensures DropRecord(r, n).pendingSlot == r.pendingSlot && DropRecord(r, n).epoch == Some(n + 2)
  {}

  lemma DropKeeps(g: Ghosts, w: World, c: Connection)
    requires Safe(g, w) && w.lanes[c].lease.None? && State(w, c).Some?
    requires w.lanes[c].fenced ==> Known(w.disk.visible, c).pendingSlot.None?
    ensures var w0 := w.(ids := w.ids + 3);
      Stepped(g, w, Persist(w0, c, DropRecord(State(w, c).value, w.ids)).0, c, !NextFault(w.disk).Saved?)
  {
    hide Safe, Persist, Onward, TargetOf, EffectiveTime;
    StateSound(g, w, c);
    var r := State(w, c).value;
    var r' := DropRecord(r, w.ids);
    DropKeepsPending(r, w.ids);
    DropSound(g, c, w.ids, r);
    hide Sound, DropRecord, Names, State, SoundOrLegacy;
    MintSafe(g, w, w.ids + 3);
    var w0 := w.(ids := w.ids + 3);
    PersistSafe(g, w0, c, r', w.ids);
    var w1 := Persist(w0, c, r').0;
    PersistSteps(w, w0, w1, w1, c);
  }

  lemma CancelKeeps(g: Ghosts, w: World, c: Connection)
    requires Safe(g, w) && w.lanes[c].lease.None? && State(w, c).Some?
    requires c in w.disk.visible && w.disk.visible[c].mode == Some(Pending) && !w.lanes[c].fenced
    ensures Stepped(g, w, Persist(w, c, CancelRecord(State(w, c).value)).0, c, true)
  {
    StateSound(g, w, c);
    var r := State(w, c).value;
    var r' := CancelRecord(r);
    assert r'.pendingSlot.None?;
    hide Safe, Sound, CancelRecord, Persist, TargetOf, Cut, Names, State, Onward;
    CancelSound(g, c, w.ids, r);
    PersistSafe(g, w, c, r', w.ids);
    var w1 := Persist(w, c, r').0;
    PersistSteps(w, w, w1, w1, c);
  }

  lemma ActivateClears(r: Record, c: Connection, action: Action, slot: Slot, identity: string, n: Id)
    ensures ActivateRecord(r, c, action, slot, identity, n).pendingSlot.None?
  {}

  lemma ActivateKeeps(g: Ghosts, w: World, c: Connection, action: Action, slot: Slot, identity: string)
    requires Safe(g, w) && w.lanes[c].lease.None? && State(w, c).Some? && c in w.disk.visible
    requires OwnedMint(c, w.ids, slot) && slot !in w.abandoned && Kept(g, slot)
    requires w.disk.visible[c].mode == Some(Active) || action == Refresh ==> w.disk.visible[c].identity == Some(identity)
    ensures var w0 := w.(ids := w.ids + 1);
      Stepped(g, w, Persist(w0, c, ActivateRecord(State(w, c).value, c, action, slot, identity, w.ids)).0, c,
              !NextFault(w.disk).Saved?)
  {
    hide Safe, Sound, ActivateRecord, Persist, TargetOf, Cut, Names, State, Onward, LiveTarget;
    StateSound(g, w, c);
    var r := State(w, c).value;
    var r' := ActivateRecord(r, c, action, slot, identity, w.ids);
    ActivateClears(r, c, action, slot, identity, w.ids);
    ActivateSound(g, c, w.ids, r, action, slot, identity);
    MintSafe(g, w, w.ids + 1);
    var w0 := w.(ids := w.ids + 1);
    PersistSafe(g, w0, c, r', w.ids);
    var w1 := Persist(w0, c, r').0;
    PersistSteps(w, w0, w1, w1, c);
  }

  /** Operations that cannot move the cancel target, given what the next commit will do. */
  predicate NeutralFinish(w: World, operation: Operation) {
    operation == Release || operation == CancelSignIn || operation == UnknownOperation || !NextFault(w.disk).Saved?
  }

  /** The one commit, if any, that a settlement makes. */
  lemma SettleShape(w: World, c: Connection, lease: Lease, operation: Operation, identity: Option<string>)
    requires State(w, c).Some?
    ensures var w1, r := Settle(w, c, lease, operation, identity).0, State(w, c).value;
      || w1 == w
      || (w1 == Persist(w.(ids := w.ids + 3), c, DropRecord(r, w.ids)).0
          && operation in {Activate, Missing, Confirm})
      || (w1 == Persist(w, c, CancelRecord(r)).0 && operation == CancelSignIn && lease.action == Cancel)
      || (operation == Activate && lease.slot.Some? && identity.Some?
          && (lease.action == Refresh || r.mode == Some(Active) ==> identity == r.identity)
          && w1 == Persist(w.(ids := w.ids + 1), c, ActivateRecord(r, c, lease.action, lease.slot.value, identity.value, w.ids)).0)
  {
    hide DropRecord, ActivateRecord, CancelRecord, State, Persist;
  }

  lemma SettleKeeps(g: Ghosts, w: World, c: Connection, lease: Lease, operation: Operation, identity: Option<string>)
    requires Safe(g, w) && w.lanes[c].lease.None? && FitToSettle(g, w, c, lease, operation)
    ensures Stepped(g, w, Settle(w, c, lease, operation, identity).0, c, NeutralFinish(w, operation))
  {
    StateReadable(g, w, c);
    NothingStepped(g, w, c, NeutralFinish(w, operation));
    SettleShape(w, c, lease, operation, identity);
    hide Safe, Stepped, DropRecord, ActivateRecord, CancelRecord, State, Persist, Kept, Known, Settle, NextFault;
    var r := State(w, c).value;
    var w1 := Settle(w, c, lease, operation, identity).0;
    if w1 == w {
    } else if w1 == Persist(w.(ids := w.ids + 3), c, DropRecord(r, w.ids)).0 && operation in {Activate, Missing, Confirm} {
      DropKeeps(g, w, c);
    } else if operation == CancelSignIn {
      CancelKeeps(g, w, c);
    } else {
      VisibleState(w, c);
      ActivateKeeps(g, w, c, lease.action, lease.slot.value, identity.value);
    }
  }

  lemma VisibleState(w: World, c: Connection)
    requires State(w, c).Some? && c in w.disk.visible
    ensures State(w, c).value == w.disk.visible[c]
  {}

  lemma SettleLane(w: World, c: Connection, lease: Lease, operation: Operation, identity: Option<string>)
    ensures var l := Settle(w, c, lease, operation, identity).0.lanes[c];
      l == w.lanes[c].(fenced := l.fenced, prior := l.prior)
  {
    hide DropRecord, ActivateRecord, CancelRecord, State;
  }

  /** The client's side of activation: it wrote, under this lease, the slot it was last told of. */
  predicate ReadyToActivate(g: Ghosts, w: World, c: Connection, operation: Operation) {
    operation == Activate && w.lanes[c].lease.Some? && w.lanes[c].lease.value.slot.Some? ==>
      w.lanes[c].lease.value.writable == w.lanes[c].lease.value.slot && Kept(g, w.lanes[c].lease.value.slot.value)
  }

  lemma HeldFits(g: Ghosts, w: World, c: Connection, operation: Operation)
    requires Safe(g, w) && w.lanes[c].lease.Some? && ReadyToActivate(g, w, c, operation)
    ensures FitToSettle(g, WithoutLease(w, c), c, w.lanes[c].lease.value, operation)
  {
    hide Base, Core, Names, Guarded;
    SafeParts(g, w, c);
    StateReadable(g, w, c);
    StateSound(g, w, c);
    assert Held(g, w.ids, w.abandoned, c, Get(w.disk.visible, c), Get(w.disk.durable, c), w.lanes[c]);
  }

  lemma FinishKeeps(g: Ghosts, w: World, owner: Owner, c: Connection, ticket: Id, operation: Operation,
      identity: Option<string>)
    requires Safe(g, w) && ReadyToActivate(g, w, c, operation)
    ensures Stepped(g, w, Finish(w, owner, c, ticket, operation, identity).0, c,
                    NeutralFinish(w, operation) && NoDeletes(w.lanes[c].queue))
  {
    hide Safe, Onward, SameElsewhere, LiveTarget, Settle, Next, ReadyToActivate, FitToSettle;
    var keeps := NeutralFinish(w, operation);
    if !Holds(w, owner, c, ticket) {
      NothingStepped(g, w, c, keeps && NoDeletes(w.lanes[c].queue));
    } else {
      var lease := w.lanes[c].lease.value;
      var w0 := WithoutLease(w, c);
      HeldFits(g, w, c, operation);
      WithoutLeaseKeeps(g, w, c);
      SettleKeeps(g, w0, c, lease, operation, identity);
      SettleLane(w0, c, lease, operation, identity);
      var w1 := Settle(w0, c, lease, operation, identity).0;
      NextKeeps(g, w1, c);
      SteppedTwice(g, w, w0, w1, c, true, keeps);
      SteppedTwice(g, w, w1, Next(w1, c), c, keeps, NoDeletes(w1.lanes[c].queue));
    }
  }

  // ---- prepareMigration ----

  /** A migration's new record guards no more than the old one, and its slot is new. */
  lemma MigratedHeld(g: Ghosts, n: nat, ab: set<Slot>, c: Connection, v: Option<Record>, d: Option<Record>, l: Lane,
      r: Record, s: Slot, n1: nat, v1: Option<Record>, d1: Option<Record>, l1: Lane, ok: bool)
    requires Base(g, n, ab, c, v, d, l) && l.lease.Some? && Held(g, n, ab, c, v, d, l) && l.lease.value.action == Read
    requires n <= n1 && OwnedMint(c, n1, s) && s.id >= n && forall x :: x in ab ==> x.Minted? && x.id < n
    requires forall x :: Names(r, x) ==> Names(OrLegacy(v), x)
    requires forall x :: Guarded(r, c, x) ==> Guarded(OrLegacy(v), c, x)
    requires OrLegacy(v).pendingSlot.None? && r.pendingSlot.None? && r.mode in {Some(Migration), Some(Active)}
    requires OrLegacy(v).mode in {Some(Legacy), Some(Migration), Some(Active)}
    requires (v1 == v || v1 == Some(r)) && (d1 == d || d1 == Some(r)) && (ok ==> v1 == Some(r))
    requires l1.lease == Some(l.lease.value.(slot := Some(s), writable := if ok then Some(s) else l.lease.value.writable))
    requires l1.prior == l.prior || l1.prior == Some(OrLegacy(v))
    requires forall t :: t in g.wrote ==> g.wrote[t].0.Minted? && g.wrote[t].0.id < n
    ensures Held(g, n1, ab, c, v1, d1, l1)
  {
    hide Sound, Names, Guarded, Base, HeldMode, Candidate;
    forall x ensures Unnamed(x, v, d, l) ==> Unnamed(x, v1, d1, l1) {}
    forall x ensures Unguarded(c, x, v, d, l) ==> Unguarded(c, x, v1, d1, l1) {}
    NewSlotUnnamed(g, n, ab, c, v, d, l, s);
    MigratedMode(g, n, ab, c, v, d, l, r, s, v1, l1, ok);
    MigratedCandidate(n, ab, c, v, d, l, r, s, n1, v1, d1, l1);
    hide Unnamed, Unguarded, OrLegacy;
    var lease := l1.lease.value;
    assert s !in lease.deletable;
    assert lease.writable.Some? ==> Candidate(c, n1, ab, lease.writable.value, v1, d1, l1);
  }

  lemma MigratedCandidate(n: nat, ab: set<Slot>, c: Connection, v: Option<Record>, d: Option<Record>, l: Lane,
      r: Record, s: Slot, n1: nat, v1: Option<Record>, d1: Option<Record>, l1: Lane)
    requires n <= n1 && OwnedMint(c, n1, s) && s.id >= n && forall x :: x in ab ==> x.Minted? && x.id < n
    requires forall x :: Unnamed(x, v, d, l) ==> Unnamed(x, v1, d1, l1)
    requires Unnamed(s, v, d, l)
    ensures Candidate(c, n1, ab, s, v1, d1, l1)
    ensures forall x :: Candidate(c, n, ab, x, v, d, l) ==> Candidate(c, n1, ab, x, v1, d1, l1)
  {
    hide Unnamed;
  }

  lemma MigratedMode(g: Ghosts, n: nat, ab: set<Slot>, c: Connection, v: Option<Record>, d: Option<Record>, l: Lane,
      r: Record, s: Slot, v1: Option<Record>, l1: Lane, ok: bool)
    requires l.lease.Some? && l.lease.value.action == Read && HeldMode(l.lease.value, l.fenced, v)
    requires l.lease.value.writable.Some? ==> Candidate(c, n, ab, l.lease.value.writable.value, v, d, l)
    requires s.Minted? && s.id >= n
    requires OrLegacy(v).pendingSlot.None? && r.pendingSlot.None? && r.mode in {Some(Migration), Some(Active)}
    requires OrLegacy(v).mode in {Some(Legacy), Some(Migration), Some(Active)}
    requires (v1 == v || v1 == Some(r)) && (ok ==> v1 == Some(r))
    requires l1.lease == Some(l.lease.value.(slot := Some(s), writable := if ok then Some(s) else l.lease.value.writable))
    ensures HeldMode(l1.lease.value, l1.fenced, v1)
  {
    hide Unnamed;
  }

  lemma NewSlotUnnamed(g: Ghosts, n: nat, ab: set<Slot>, c: Connection, v: Option<Record>, d: Option<Record>, l: Lane,
      s: Slot)
    requires Base(g, n, ab, c, v, d, l) && s.Minted? && s.id >= n
    ensures Unnamed(s, v, d, l)
  {
    NamedEarlier(g, n, c, v, d);
    if l.prior.Some? { NamedEarlier(g, n, c, if l.prior.value == LegacyState then None else l.prior, v); }
    hide Sound;
  }

  lemma NamedEarlier(g: Ghosts, n: nat, c: Connection, v: Option<Record>, d: Option<Record>)
    requires Stored(g, c, n, v) && Stored(g, c, n, d)
    ensures forall x :: Names(OrLegacy(v), x) || Names(OrLegacy(d), x) ==> x.Minted? && x.id < n
  {}

  lemma MigrateFacts(g: Ghosts, w: World, c: Connection)
    requires Safe(g, w) && State(w, c).Some?
    requires var r := State(w, c).value; r.mode == Some(Legacy) || r.mode == Some(Migration) || ValidBackup(r, c)
    ensures var r := State(w, c).value; var r' := MigrationRecord(r, c, w.ids);
      && Sound(g, c, w.ids + MigrationIds(r), r') && TargetOf(r') == TargetOf(r)
      && (forall x :: Names(r', x) ==> Names(r, x)) && (forall x :: Guarded(r', c, x) ==> Guarded(r, c, x))
      && r.pendingSlot.None? && r'.pendingSlot.None? && r'.mode in {Some(Migration), Some(Active)}
      && (r'.epoch.value >= w.ids
          || (c in w.disk.visible && r'.epoch == w.disk.visible[c].epoch && r'.cache == w.disk.visible[c].cache))
      && (forall s :: s in w.abandoned ==> !Names(r', s) && r'.pendingSlot != Some(s))
      && (w.lanes[c].prior.None? ==> TargetOf(r) == LiveTarget(w, c))
  {
    StateSound(g, w, c);
    var r := State(w, c).value;
    MigrationSound(g, c, w.ids, r);
    MigrationPlain(r, c, w.ids);
    assert w.lanes[c].prior.None? ==> TargetOf(r) == LiveTarget(w, c);
    hide MigrationRecord, TargetOf, Names, Guarded, State, Safe;
  }

  lemma MigrationPlain(r: Record, c: Connection, n: Id)
    ensures var r' := MigrationRecord(r, c, n);
      && r'.pendingSlot == r.pendingSlot
      && r'.mode == (if r.mode == Some(Active) then r.mode else Some(Migration))
      && r'.epoch == (if r.mode == Some(Active) then r.epoch else Some(n + 2))
      && (r.mode == Some(Active) ==> r'.cache == r.cache)
  {}

  /** A preparation that commits, with its lease set aside during the commit. */
  lemma MigrateShape(w: World, owner: Owner, c: Connection, ticket: Id)
    requires PrepareMigration(w, owner, c, ticket).0 != w
    ensures Holds(w, owner, c, ticket) && State(w, c).Some? && w.lanes[c].lease.value.action == Read
    ensures var r, lease := State(w, c).value, w.lanes[c].lease.value;
      && (r.mode == Some(Legacy) || r.mode == Some(Migration) || ValidBackup(r, c))
      && var (w1, ok) := Persist(WithoutLease(w, c).(ids := w.ids + MigrationIds(r)), c, MigrationRecord(r, c, w.ids));
         var s := Some(MigrationSlot(r, c, w.ids));
         PrepareMigration(w, owner, c, ticket).0
           == Put(w1, c, w1.lanes[c].(lease := Some(lease.(slot := s, writable := if ok then s else lease.writable))))
  {
    hide MigrationRecord, State, ValidBackup, Persist, MigrationSlot, MigrationIds, Put;
    var r, lease := State(w, c).value, w.lanes[c].lease.value;
    var s := Some(MigrationSlot(r, c, w.ids));
    var w0 := WithoutLease(w, c).(ids := w.ids + MigrationIds(r));
    var waiting := Some(lease.(slot := s));
    HeldAgain(w, c, waiting, w.ids + MigrationIds(r));
    PersistIgnoresLease(w0, c, MigrationRecord(r, c, w.ids), waiting);
    var w1 := Persist(w0, c, MigrationRecord(r, c, w.ids)).0;
    PutTwice(w1, c, w1.lanes[c].(lease := waiting), w1.lanes[c].(lease := Some(lease.(slot := s, writable := s))));
  }

  lemma HeldAgain(w: World, c: Connection, lease: Option<Lease>, n: nat)
    ensures var w0 := WithoutLease(w, c).(ids := n);
      Put(w0, c, w0.lanes[c].(lease := lease)) == Put(w.(ids := n), c, w.lanes[c].(lease := lease))
  {
    assert w.lanes[c := w.lanes[c].(lease := None)][c := w.lanes[c].(lease := lease)] == w.lanes[c := w.lanes[c].(lease := lease)];
  }

  /** Taking a lease back up after a commit made without it. */
  lemma RejoinKeeps(g: Ghosts, w: World, c: Connection, lease: Lease)
    requires Safe(g, w) && w.lanes[c].lease.None?
    requires Held(g, w.ids, w.abandoned, c, Get(w.disk.visible, c), Get(w.disk.durable, c), w.lanes[c].(lease := Some(lease)))
    ensures Safe(g, Put(w, c, w.lanes[c].(lease := Some(lease))))
  {
    hide Held, Base, Synced;
    var w1 := Put(w, c, w.lanes[c].(lease := Some(lease)));
    forall x ensures ConnAt(g, w1, x) {
      assert ConnAt(g, w, x);
      if x == c { BaseIgnoresAnyLease(g, w, c, Some(lease)); }
    }
  }

  lemma BaseIgnoresAnyLease(g: Ghosts, w: World, c: Connection, lease: Option<Lease>)
    requires ConnAt(g, w, c)
    ensures var w1 := Put(w, c, w.lanes[c].(lease := lease));
      && BaseAt(g, w1, c)
      && Synced(w1.abandoned, Get(w1.disk.visible, c), Get(w1.disk.durable, c), w1.lanes[c])
  {
    hide Sound, Names, Core, SoundOrLegacy;
  }

  lemma MigrateKeeps(g: Ghosts, w: World, owner: Owner, c: Connection, ticket: Id)
    requires Safe(g, w)
    ensures Stepped(g, w, PrepareMigration(w, owner, c, ticket).0, c, true)
  {
    hide Conn, Base, Synced, Held, MigrationRecord, TargetOf, Names, Guarded, State, Persist, Sound, Cut, ValidBackup,
         SoundOrLegacy, LiveTarget, Onward, PrepareMigration, ConnAt, BaseAt, AllBut, Safe, Commit;
    var w2 := PrepareMigration(w, owner, c, ticket).0;
    if w2 == w { NothingStepped(g, w, c, true); return; }
    MigrateShape(w, owner, c, ticket);
    var r := State(w, c).value;
    var lease := w.lanes[c].lease.value;
    var r' := MigrationRecord(r, c, w.ids);
    MigrateFacts(g, w, c);
    WithoutLeaseKeeps(g, w, c);
    var wl := WithoutLease(w, c);
    var w0 := wl.(ids := w.ids + MigrationIds(r));
    MintSafe(g, wl, w0.ids);
    PersistSafe(g, w0, c, r', w.ids);
    var (w1, ok) := Persist(w0, c, r');
    PersistShape(w0, c, r');
    var lease' := w2.lanes[c].lease.value;
    MigrateHeld(g, w, c, r', w1, lease', ok);
    RejoinKeeps(g, w1, c, lease');
    MigrateMoves(w, wl, w0, w1, w2, c);
    TargetIgnoresLease(w1, c, Some(lease'));
    if ok { MigrateTarget(w0, w1, c, r'); }
  }

  lemma TargetIgnoresLease(w: World, c: Connection, lease: Option<Lease>)
    ensures forall x :: LiveTarget(Put(w, c, w.lanes[c].(lease := lease)), x) == LiveTarget(w, x)
  {
    hide TargetOf;
  }

  lemma MigrateTarget(w: World, w1: World, c: Connection, r: Record)
    requires w1.lanes[c].prior == w.lanes[c].prior && Get(w1.disk.visible, c) == Some(r)
    requires w.lanes[c].prior.None? ==> TargetOf(r) == LiveTarget(w, c)
    ensures LiveTarget(w1, c) == LiveTarget(w, c)
  {
    hide TargetOf;
  }

  lemma MigrateHeld(g: Ghosts, w: World, c: Connection, r': Record, w1: World, lease': Lease, ok: bool)
    requires Safe(g, w) && w.lanes[c].lease.Some? && w.lanes[c].lease.value.action == Read && State(w, c).Some?
    requires var r := State(w, c).value;
      && (r.mode == Some(Legacy) || r.mode == Some(Migration) || ValidBackup(r, c)) && r' == MigrationRecord(r, c, w.ids)
      && lease' == w.lanes[c].lease.value.(slot := Some(MigrationSlot(r, c, w.ids)),
                     writable := if ok then Some(MigrationSlot(r, c, w.ids)) else w.lanes[c].lease.value.writable)
      && w1.ids == w.ids + MigrationIds(r)
    requires w1.abandoned == w.abandoned
    requires Get(w1.disk.visible, c) == Get(w.disk.visible, c) || Get(w1.disk.visible, c) == Some(r')
    requires Get(w1.disk.durable, c) == Get(w.disk.durable, c) || Get(w1.disk.durable, c) == Some(r')
    requires ok ==> Get(w1.disk.visible, c) == Some(r')
    requires w1.lanes[c].prior in {w.lanes[c].prior, Some(OrLegacy(Get(w.disk.visible, c)))}
    ensures Held(g, w1.ids, w1.abandoned, c, Get(w1.disk.visible, c), Get(w1.disk.durable, c), w1.lanes[c].(lease := Some(lease')))
  {
    StateSound(g, w, c);
    MigrateFacts(g, w, c);
    SafeParts(g, w, c);
    hide Base, Held, MigrationRecord, Names, Guarded, State, TargetOf, LiveTarget, Sound, Synced;
    var v, d := Get(w.disk.visible, c), Get(w.disk.durable, c);
    var r := OrLegacy(v);
    ModeKnown(r, c);
    MigratedHeld(g, w.ids, w.abandoned, c, v, d, w.lanes[c], r', MigrationSlot(r, c, w.ids), w1.ids,
                 Get(w1.disk.visible, c), Get(w1.disk.durable, c), w1.lanes[c].(lease := Some(lease')), ok);
  }

  lemma ModeKnown(r: Record, c: Connection)
    ensures ValidBackup(r, c) ==> r.mode == Some(Active)
  {}

  lemma MigrateMoves(w: World, wl: World, w0: World, w1: World, w2: World, c: Connection)
    requires wl == WithoutLease(w, c) && w0 == wl.(ids := w0.ids) && w0.ids >= w.ids && w1.ids == w0.ids
    requires w2.disk == w1.disk && w2.ids == w1.ids && (forall x :: x != c ==> w2.lanes[x] == w1.lanes[x] == w0.lanes[x])
    requires w.lanes[c].lease.Some? && w2.lanes[c].lease.Some? && w2.lanes[c].lease.value.ticket == w.lanes[c].lease.value.ticket
    requires w2.lanes[c].fetch == w.lanes[c].fetch
    requires forall x, n: nat :: n <= w.ids && Cut(w0, x, n) ==> Cut(w1, x, n)
    ensures Onward(w, w2)
  {
    forall x, n: nat | n <= w.ids && Cut(w, x, n) ensures Cut(w2, x, n) { assert Cut(w0, x, n); assert Cut(w1, x, n); }
    hide Cut;
  }

  // ---- Best-effort commits ----

  lemma CoreTarget(a: Record, b: Record)
    requires Core(a) == Core(b)
    ensures TargetOf(a) == TargetOf(b) && a.mode == b.mode && a.pendingSlot == b.pendingSlot
  {
    var p, q := Core(a), Core(b);
    assert a.mode == p.mode == q.mode == b.mode && a.pendingSlot == p.pendingSlot == q.pendingSlot == b.pendingSlot;
    assert a.slot == p.slot == q.slot == b.slot && a.identity == p.identity == q.identity == b.identity;
    assert a.previousSlot == p.previousSlot == q.previousSlot == b.previousSlot;
    assert a.previousIdentity == p.previousIdentity == q.previousIdentity == b.previousIdentity;
    assert a.previousMode == p.previousMode == q.previousMode == b.previousMode;
  }

  lemma SoftConn(g: Ghosts, n: nat, ab: set<Slot>, c: Connection, v: Option<Record>, d: Option<Record>, l: Lane,
      r: Record, v1: Option<Record>, d1: Option<Record>)
    requires Conn(g, n, ab, c, v, d, l) && Sound(g, c, n, r) && Core(r) == Core(OrLegacy(v))
    requires (v1 == v || v1 == Some(r)) && (d1 == d || d1 == Some(r))
    ensures Conn(g, n, ab, c, v1, d1, l)
  {
    CoreTarget(r, OrLegacy(v));
    forall s ensures Guarded(r, c, s) == Guarded(OrLegacy(v), c, s) && Names(r, s) == Names(OrLegacy(v), s) {
      hide Guarded, Names, Core;
      GuardedByCore(r, OrLegacy(v), c, s);
    }
    hide Base, Synced, Sound, Guarded, Names, Core, TargetOf, Held;
    SoftBase(g, n, ab, c, v, d, l, r, v1, d1);
    if l.lease.Some? {
      SoftHeld(g, n, ab, c, v, d, l, r, v1, d1);
    }
  }

  lemma SoftBase(g: Ghosts, n: nat, ab: set<Slot>, c: Connection, v: Option<Record>, d: Option<Record>, l: Lane,
      r: Record, v1: Option<Record>, d1: Option<Record>)
    requires Base(g, n, ab, c, v, d, l) && Synced(ab, v, d, l) && Sound(g, c, n, r)
    requires Core(r) == Core(OrLegacy(v)) && r.pendingSlot == OrLegacy(v).pendingSlot
    requires forall s :: Names(r, s) == Names(OrLegacy(v), s)
    requires (v1 == v || v1 == Some(r)) && (d1 == d || d1 == Some(r))
    ensures Base(g, n, ab, c, v1, d1, l) && Synced(ab, v1, d1, l)
  {
    hide Sound, Names, Core, SoundOrLegacy;
  }

  lemma SoftHeld(g: Ghosts, n: nat, ab: set<Slot>, c: Connection, v: Option<Record>, d: Option<Record>, l: Lane,
      r: Record, v1: Option<Record>, d1: Option<Record>)
    requires l.lease.Some? && Held(g, n, ab, c, v, d, l)
    requires forall s :: Guarded(r, c, s) == Guarded(OrLegacy(v), c, s) && Names(r, s) == Names(OrLegacy(v), s)
    requires r.mode == OrLegacy(v).mode && r.pendingSlot == OrLegacy(v).pendingSlot
    requires (v1 == v || v1 == Some(r)) && (d1 == d || d1 == Some(r))
    ensures Held(g, n, ab, c, v1, d1, l)
  {
    forall s ensures Unnamed(s, v, d, l) ==> Unnamed(s, v1, d1, l) {
      hide Names;
    }
    forall s ensures Unguarded(c, s, v, d, l) ==> Unguarded(c, s, v1, d1, l) {
      hide Guarded;
    }
    hide Unnamed, Unguarded, Guarded, Names;
    assert HeldMode(l.lease.value, l.fenced, v1);
  }

  lemma SoftKeeps(g: Ghosts, w: World, c: Connection, r: Record, m: nat)
    requires Safe(g, w) && Sound(g, c, w.ids, r) && Core(r) == Core(Known(w.disk.visible, c)) && m <= w.ids
    requires r.epoch.value >= m || (c in w.disk.visible && r.epoch == w.disk.visible[c].epoch)
    ensures var w1 := SoftPersist(w, c, r).0;
      && Safe(g, w1) && (forall x :: LiveTarget(w1, x) == LiveTarget(w, x))
      && w1.ids == w.ids && w1.lanes == w.lanes && w1.abandoned == w.abandoned
      && SameElsewhere(w, w1, c)
      && (forall x, n: nat :: n <= m && Cut(w, x, n) ==> Cut(w1, x, n))
      && (r.epoch.value >= m || EffectiveTime(Known(w.disk.visible, c).cache) <= EffectiveTime(r.cache) ==>
            Newer(w.disk, w1.disk, c, m))
  {
    assert r.epoch.Some?;
    var w1 := SoftPersist(w, c, r).0;
    var v, d := Get(w.disk.visible, c), Get(w.disk.durable, c);
    var v1, d1 := Get(w1.disk.visible, c), Get(w1.disk.durable, c);
    CommitShape(w.disk, c, r);
    hide Sound, Core, TargetOf, Conn, Cut, Commit, Safe, AllBut, Newer, EffectiveTime, LiveTarget;
    SafeParts(g, w, c);
    SoftTarget(w, w1, c, r, m);
    CommitElsewhere(g, w, w1, c, r);
    CommitCuts(w, w1, c, r, m);
    SoftConn(g, w.ids, w.abandoned, c, v, d, w.lanes[c], r, v1, d1);
    SafeFrom(g, w1, c);
  }

  lemma SoftTarget(w: World, w1: World, c: Connection, r: Record, m: nat)
    requires w1.lanes == w.lanes && (Get(w1.disk.visible, c) == Get(w.disk.visible, c) || Get(w1.disk.visible, c) == Some(r))
    requires Core(r) == Core(Known(w.disk.visible, c)) && r.epoch.Some?
    requires r.epoch.value >= m || (c in w.disk.visible && r.epoch == w.disk.visible[c].epoch)
    ensures LiveTarget(w1, c) == LiveTarget(w, c)
    ensures r.epoch.value >= m || EffectiveTime(Known(w.disk.visible, c).cache) <= EffectiveTime(r.cache) ==>
              Newer(w.disk, w1.disk, c, m)
    ensures Known(w.disk.visible, c) == OrLegacy(Get(w.disk.visible, c))
  {
    CoreTarget(r, Known(w.disk.visible, c));
    hide Core, TargetOf, EffectiveTime;
    if r.epoch.value >= m || EffectiveTime(Known(w.disk.visible, c).cache) <= EffectiveTime(r.cache) {
      PersistNewer(w.disk, w1.disk, c, r, m);
    }
  }

  lemma SafeFrom(g: Ghosts, w: World, c: Connection)
    requires AllBut(g, w, c) && ConnAt(g, w, c)
    ensures Safe(g, w)
  {
    hide ConnAt;
  }

  /** A best-effort call that minted `k` ids first; `newer` when it respects snapshot time. */
  ghost predicate SoftStepped(g: Ghosts, w: World, w1: World, c: Connection, newer: bool) {
    && Safe(g, w1) && Onward(w, w1) && SameElsewhere(w, w1, c) && LiveTarget(w1, c) == LiveTarget(w, c)
    && w1.lanes == w.lanes && w1.abandoned == w.abandoned && (newer ==> Newer(w.disk, w1.disk, c, w.ids))
  }

  lemma MintedSoftKeeps(g: Ghosts, w: World, c: Connection, r: Record, k: nat, newer: bool)
    requires Safe(g, w) && Sound(g, c, w.ids + k, r) && Core(r) == Core(Known(w.disk.visible, c))
    requires r.epoch.value >= w.ids || (c in w.disk.visible && r.epoch == w.disk.visible[c].epoch)
    requires newer ==> r.epoch.value >= w.ids || EffectiveTime(Known(w.disk.visible, c).cache) <= EffectiveTime(r.cache)
    ensures SoftStepped(g, w, SoftPersist(w.(ids := w.ids + k), c, r).0, c, newer)
    ensures newer ==> Stepped(g, w, SoftPersist(w.(ids := w.ids + k), c, r).0, c, true)
  {
    hide Safe, Sound, Core, LiveTarget, Cut, SoftPersist, Newer, EffectiveTime, Known;
    MintSafe(g, w, w.ids + k);
    SoftKeeps(g, w.(ids := w.ids + k), c, r, w.ids);
  }

  lemma QueueCleanupKeeps(g: Ghosts, w: World, owner: Owner, c: Connection, ticket: Id)
    requires Safe(g, w)
    ensures Stepped(g, w, QueueLegacyCleanup(w, owner, c, ticket).0, c, true)
  {
    NothingStepped(g, w, c, true);
    if QueueLegacyCleanup(w, owner, c, ticket).0 != w {
      StateSound(g, w, c);
      var r := State(w, c).value;
      var k := if r.generation.Some? then 0 else 3;
      var r' := Retire(if r.generation.Some? then r else Barrier(r, Legacy, w.ids), Some(PastedSecret(c)));
      QueuedSound(g, c, w.ids, r);
      hide Safe, Sound, Stepped, State, Retire, Barrier, SoftPersist, Core;
      MintedSoftKeeps(g, w, c, r', k, true);
    }
  }

  lemma QueuedSound(g: Ghosts, c: Connection, n: nat, r: Record)
    requires SoundOrLegacy(g, c, n, r)
    ensures var k := if r.generation.Some? then 0 else 3;
            var r' := Retire(if r.generation.Some? then r else Barrier(r, Legacy, n), Some(PastedSecret(c)));
      && Sound(g, c, n + k, r') && Core(r') == Core(r)
      && (r'.epoch == Some(n + 2) || (r != LegacyState && r'.epoch == r.epoch && r'.cache == r.cache))
  {
    if r.generation.Some? { RetireSound(g, c, n, r, Some(PastedSecret(c))); }
  }

  lemma {:induction false} UnacknowledgedSubset(slots: seq<Slot>, cleaned: set<Slot>, r: Record, c: Connection,
      writeSlot: Option<Slot>, ab: set<Slot>, s: Slot)
    ensures s in Unacknowledged(slots, cleaned, r, c, writeSlot, ab) <==>
            s in slots && !(s in cleaned && !Guarded(r, c, s) && writeSlot != Some(s) && s !in ab)
  {
    hide Guarded;
    if slots != [] { UnacknowledgedSubset(slots[1..], cleaned, r, c, writeSlot, ab, s); }
  }

  lemma AcknowledgeKeeps(g: Ghosts, w: World, owner: Owner, c: Connection, ticket: Id, cleaned: set<Slot>)
    requires Safe(g, w) && c in w.disk.visible
    ensures Stepped(g, w, AcknowledgeCleanup(w, owner, c, ticket, cleaned).0, c, true)
  {
    NothingStepped(g, w, c, true);
    if AcknowledgeCleanup(w, owner, c, ticket, cleaned).0 != w {
      StateSound(g, w, c);
      var r := State(w, c).value;
      var slots := Unacknowledged(r.retired, cleaned, r, c, w.lanes[c].lease.value.slot, w.abandoned);
      forall s | s in slots ensures Owned(c, w.ids, s) {
        UnacknowledgedSubset(r.retired, cleaned, r, c, w.lanes[c].lease.value.slot, w.abandoned, s);
      }
      var r' := r.(retired := slots);
      assert Sound(g, c, w.ids, r') && Core(r') == Core(r);
      hide Safe, Sound, Stepped, State, SoftPersist, Core, Unacknowledged;
      MintedSoftKeeps(g, w, c, r', 0, true);
    }
  }

  lemma ClearKeeps(g: Ghosts, w: World, c: Connection, expected: Option<Version>)
    requires Safe(g, w)
    ensures Stepped(g, w, ClearSnapshot(w, c, expected).0, c, true)
  {
    NothingStepped(g, w, c, true);
    if ClearSnapshot(w, c, expected).0 != w {
      StateSound(g, w, c);
      var r := State(w, c).value;
      var r' := r.(epoch := Some(w.ids), cache := EmptyCache);
      assert Sound(g, c, w.ids + 1, r') && Core(r') == Core(r);
      hide Safe, Sound, Stepped, State, SoftPersist, Core;
      MintedSoftKeeps(g, w, c, r', 1, true);
    }
  }

  /** The history entry that an accepted write owes. */
  function EntryOf(w: World, c: Connection, payload: string): Option<Entry> {
    if State(w, c).None? then None
    else
      var r := State(w, c).value;
      if r.generation.None? || r.identity.None? || r.epoch.None? then None
      else Some(Entry(c, r.generation.value, r.identity.value, r.epoch.value, payload))
  }

  lemma WriteKeeps(g: Ghosts, w: World, c: Connection, expected: Option<Version>, payload: string, at: int)
    requires Safe(g, w)
    requires LongMin <= at <= LongMax
    requires WriteSnapshot(w, c, expected, payload, at).0 != w ==>
               EntryOf(w, c, payload).Some? && EntryOf(w, c, payload).value in g.written
    ensures Stepped(g, w, WriteSnapshot(w, c, expected, payload, at).0, c, true)
  {
    NothingStepped(g, w, c, true);
    if WriteSnapshot(w, c, expected, payload, at).0 != w {
      StateSound(g, w, c);
      var r := State(w, c).value;
      var r' := r.(cache := Cache(Some(payload), Some(Number(at)), Some("1"), true));
      assert Sound(g, c, w.ids, r') && Core(r') == Core(r);
      hide Safe, Sound, Stepped, State, SoftPersist, Core;
      MintedSoftKeeps(g, w, c, r', 0, true);
    }
  }

  /** The stored snapshot time the upgrade must not go below. */
  predicate HonestUpgrade(w: World, c: Connection, at: int) {
    LongMin <= at <= LongMax && EffectiveTime(Known(w.disk.visible, c).cache) <= at
  }

  lemma UpgradeKeeps(g: Ghosts, w: World, c: Connection, expected: Option<Version>, payload: string, at: int)
    requires Safe(g, w)
    ensures SoftStepped(g, w, UpgradeSnapshotTimestamp(w, c, expected, payload, at).0, c, HonestUpgrade(w, c, at))
  {
    hide Newer;
    NothingStepped(g, w, c, true);
    assert Newer(w.disk, w.disk, c, w.ids) by { PersistNewerSame(w.disk, c, w.ids); }
    if UpgradeSnapshotTimestamp(w, c, expected, payload, at).0 != w {
      StateSound(g, w, c);
      var r := State(w, c).value;
      var r' := r.(cache := r.cache.(at := Some(Number(at)), micros := true));
      assert Sound(g, c, w.ids, r') && Core(r') == Core(r);
      assert HonestUpgrade(w, c, at) ==> EffectiveTime(r.cache) <= EffectiveTime(r'.cache);
      hide Safe, Sound, State, SoftPersist, Core, EffectiveTime, SoftStepped;
      MintedSoftKeeps(g, w, c, r', 0, HonestUpgrade(w, c, at));
    }
  }

  lemma PersistNewerSame(d: Disk, c: Connection, m: nat)
    ensures Newer(d, d, c, m)
  {}

  lemma ReadKeeps(g: Ghosts, w: World, c: Connection, expected: Option<Version>)
    requires Safe(g, w)
    ensures Stepped(g, w, ReadSnapshot(w, c, expected).0, c, true)
  {
    hide Safe, Stepped, ClearSnapshot, Valid, State;
    NothingStepped(g, w, c, true);
    ClearKeeps(g, w, c, expected);
  }
}
