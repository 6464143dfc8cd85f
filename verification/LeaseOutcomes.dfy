/** When each call on a held lease, and each call on a snapshot, succeeds, and what it leaves
    stored, told by the fields of the record it finds. */
module LeaseOutcomes {
  import opened Wrappers
  import opened CredentialRecords
  import opened LeaseWorld
  import opened Safety
  import opened LeaseSteps
  import opened LeaseCalls
  import opened LeaseDetach
  import opened LeaseQueue
  import opened LeaseMemory
  import opened LeaseAnswers
  import opened LeaseVanished

  // ---- The record a call finds, and what a commit does ----

  /** The record of the connection: the stored one if it is whole, or a legacy one. */
  predicate Found(w: World, c: Connection, r: Record) {
    if c in w.disk.visible then w.disk.visible[c] == r && Whole(r) else r == LegacyState
  }

  lemma FoundIff(w: World, c: Connection, r: Record)
    ensures State(w, c) == Some(r) <==> Found(w, c, r)
  {}

  /** A fencing commit: saved in both files, or the connection is closed to all but a new sign-in
      and remembers the record before its first failure. */
  ghost predicate Stores(w: World, w1: World, c: Connection, r: Record) {
    && w1.abandoned == w.abandoned && (forall x :: x != c ==> w1.lanes[x] == w.lanes[x])
    && var l, l1 := w.lanes[c], w1.lanes[c];
       if NextFault(w.disk).Saved? then Filed(w1, c, r) && l1 == l
       else l1 == l.(fenced := true, prior := if l.prior.Some? then l.prior else Some(OrLegacy(Get(w.disk.visible, c))))
  }

  lemma PersistStores(w: World, c: Connection, r: Record)
    ensures var (w1, ok) := Persist(w, c, r); Stores(w, w1, c, r) && ok == NextFault(w.disk).Saved?
  {}

  lemma StoresLater(w: World, n: nat, w1: World, c: Connection, r: Record)
    requires Stores(w.(ids := n), w1, c, r)
    ensures Stores(w, w1, c, r)
  {
    hide Filed;
  }

  // ---- finish ----

  /** The holder's reservation, if its lease quotes one, still stands. */
  predicate Standing(w: World, c: Connection, lease: Lease) {
    lease.fetchTicket.Some? ==> w.lanes[c].fetch.lease == Some(FetchLease(lease.owner, lease.fetchTicket.value))
  }

  predicate IdentityChanged(r: Record, lease: Lease, identity: Option<string>) {
    (lease.action == Refresh || r.mode == Some(Active)) && identity != r.identity
  }

  predicate Activates(lease: Lease, operation: Operation, identity: Option<string>) {
    operation == Activate && lease.slot.Some? && identity.Some? && |identity.value| == 64
  }

  predicate Drops(r: Record, lease: Lease, operation: Operation, identity: Option<string>) {
    || operation == Missing || (operation == Confirm && identity.Some? && identity != r.identity)
    || (Activates(lease, operation, identity) && IdentityChanged(r, lease, identity))
  }

  predicate SettlesQuietly(r: Record, operation: Operation, identity: Option<string>) {
    operation == Release || (operation == Confirm && identity.Some? && identity == r.identity)
  }

  /** An account found missing, or found to be another one. */
  ghost predicate AsDropped(r: Record, r': Record, n: nat) {
    && r'.mode == Some(Deleted) && Renewed(r', n) && r'.slot.None? && r'.identity.None? && NoBackup(r')
    && r'.cache == EmptyCache
    && r'.previousSlot == r.previousSlot && r'.previousIdentity == r.previousIdentity && r'.previousMode == r.previousMode
    && r'.previousBackupKey == r.previousBackupKey && r'.pendingSlot == r.pendingSlot
    && forall s :: s in r'.retired <==> s in r.retired || r.slot == Some(s)
  }

  /** The backup key an activation starts from. */
  function KeyBefore(r: Record, c: Connection): Option<Slot> {
    if r.mode == Some(Migration) then Some(LegacyKey(c)) else r.backupKey
  }

  /** The holder's slot becomes the active one; a refresh or a sign-in also gives up the
      original key, a migration keeps it bound to the new record. */
  ghost predicate AsActivated(r: Record, r': Record, c: Connection, lease: Lease, identity: string, n: nat) {
    && r'.mode == Some(Active) && r'.slot == lease.slot && r'.identity == Some(identity)
    && r'.revision.Some? && r'.revision.value >= n
    && r'.lifecycle == r.lifecycle && r'.generation == r.generation && r'.epoch == r.epoch && r'.cache == r.cache
    && NoPrevious(r') && r'.previousBackupKey.None? && r'.pendingSlot.None?
    && (if lease.action == Complete || lease.action == Refresh then NoBackup(r')
        else r'.backupKey == KeyBefore(r, c) && (r'.backupKey.Some? ==> BoundBackup(r')))
    && forall s :: s in r'.retired <==>
         || s in r.retired || r.slot == Some(s)
         || ((lease.action == Complete || lease.action == Refresh) && KeyBefore(r, c) == Some(s))
  }

  predicate BoundBackup(r: Record) {
    r.backupSlot == r.slot && r.backupGeneration == r.generation && r.backupRevision == r.revision
  }

  /** Back to the record before the sign-in, as far as it is remembered. */
  predicate AsCancelled(r: Record, r': Record) {
    && NoPrevious(r') && r'.previousBackupKey.None? && r'.pendingSlot.None?
    && r'.lifecycle == r.lifecycle && r'.generation == r.generation && r'.revision == r.revision && r'.epoch == r.epoch
    && r'.cache == r.cache && r'.retired == r.retired
    && (if r.previousSlot.Some?
        then r'.mode == Some(Active) && r'.slot == r.previousSlot && r'.identity == r.previousIdentity
             && (r'.backupKey.Some? ==> BoundBackup(r'))
        else r'.slot == r.slot && r'.identity == r.identity
             && r'.mode == if r.previousMode == Some(Legacy) then Some(Legacy) else Some(Deleted))
    && r'.backupKey == if r.previousBackupKey.Some? then r.previousBackupKey else r.backupKey
  }

  lemma DropIsDropped(r: Record, n: Id)
    ensures AsDropped(r, DropRecord(r, n), n)
  {
    forall s ensures s in DropRecord(r, n).retired <==> s in r.retired || r.slot == Some(s) { RetireLists(r, r.slot, s); }
  }

  lemma ActivateLists(r: Record, c: Connection, lease: Lease, identity: string, n: Id, s: Slot)
    requires lease.slot.Some?
    ensures s in ActivateRecord(r, c, lease.action, lease.slot.value, identity, n).retired <==>
      || s in r.retired || r.slot == Some(s)
      || ((lease.action == Complete || lease.action == Refresh) && KeyBefore(r, c) == Some(s))
  {
    hide LegacyKey;
    var migrated := if r.mode == Some(Migration) then r.(backupKey := Some(LegacyKey(c))) else r;
    var given := lease.action == Complete || lease.action == Refresh;
    var owned := if given then RemoveBackup(Retire(migrated, migrated.backupKey)) else migrated;
    if given { RetireLists(migrated, migrated.backupKey, s); }
    RetireOnly(migrated, migrated.backupKey);
    RetireLists(owned, owned.slot, s);
    ActivateRetires(r, c, lease.action, lease.slot.value, identity, n, migrated, owned);
  }

  lemma ActivateRetires(r: Record, c: Connection, action: Action, slot: Slot, identity: string, n: Id,
      migrated: Record, owned: Record)
    requires migrated == if r.mode == Some(Migration) then r.(backupKey := Some(LegacyKey(c))) else r
    requires owned == if action == Complete || action == Refresh then RemoveBackup(Retire(migrated, migrated.backupKey))
                      else migrated
    ensures ActivateRecord(r, c, action, slot, identity, n).retired == Retire(owned, owned.slot).retired
  {
    hide LegacyKey, Retire;
  }

  lemma ActivateIsActivated(r: Record, c: Connection, lease: Lease, identity: string, n: Id)
    requires lease.slot.Some?
    ensures AsActivated(r, ActivateRecord(r, c, lease.action, lease.slot.value, identity, n), c, lease, identity, n)
  {
    ActivateFields(r, c, lease, identity, n);
    hide LegacyKey, ActivateRecord, NoPrevious, NoBackup, BoundBackup, KeyBefore;
    var r' := ActivateRecord(r, c, lease.action, lease.slot.value, identity, n);
    forall s ensures s in r'.retired <==>
        || s in r.retired || r.slot == Some(s)
        || ((lease.action == Complete || lease.action == Refresh) && KeyBefore(r, c) == Some(s))
    {
      ActivateLists(r, c, lease, identity, n, s);
    }
  }

  lemma ActivateFields(r: Record, c: Connection, lease: Lease, identity: string, n: Id)
    requires lease.slot.Some?
    ensures var r' := ActivateRecord(r, c, lease.action, lease.slot.value, identity, n);
      && r'.mode == Some(Active) && r'.slot == lease.slot && r'.identity == Some(identity) && r'.revision == Some(n)
      && r'.lifecycle == r.lifecycle && r'.generation == r.generation && r'.epoch == r.epoch && r'.cache == r.cache
      && NoPrevious(r') && r'.previousBackupKey.None? && r'.pendingSlot.None?
      && if lease.action == Complete || lease.action == Refresh then NoBackup(r')
         else r'.backupKey == KeyBefore(r, c) && (r'.backupKey.Some? ==> BoundBackup(r'))
  {
    hide LegacyKey;
  }

  lemma CancelIsCancelled(r: Record)
    ensures AsCancelled(r, CancelRecord(r))
  {}

  predicate Cancels(lease: Lease, operation: Operation) { operation == CancelSignIn && lease.action == Cancel }

  /** The record that finishing `lease` commits, when it commits one. */
  ghost predicate Finishes(r: Record, r': Record, c: Connection, lease: Lease, operation: Operation,
      identity: Option<string>, n: nat)
  {
    if Drops(r, lease, operation, identity) then AsDropped(r, r', n)
    else if Cancels(lease, operation) then AsCancelled(r, r')
    else Activates(lease, operation, identity) && AsActivated(r, r', c, lease, identity.value, n)
  }

  predicate FinishCommits(w: World, c: Connection, r: Record, lease: Lease, operation: Operation,
      identity: Option<string>)
  {
    && Standing(w, c, lease)
    && (Drops(r, lease, operation, identity) || Cancels(lease, operation) || Activates(lease, operation, identity))
  }

  predicate FinishSucceeds(w: World, c: Connection, r: Record, lease: Lease, operation: Operation,
      identity: Option<string>)
  {
    && Standing(w, c, lease)
    && (SettlesQuietly(r, operation, identity)
        || (NextFault(w.disk).Saved? && FinishCommits(w, c, r, lease, operation, identity)
            && !(operation == Activate && IdentityChanged(r, lease, identity))))
  }

  ghost predicate SettledAs(w: World, w1: World, out: Result<Record>, c: Connection, r: Record, r': Record,
      lease: Lease, operation: Operation, identity: Option<string>)
  {
    && (out.Success? <==> FinishSucceeds(w, c, r, lease, operation, identity)) && (out.Success? ==> out.value == r')
    && if FinishCommits(w, c, r, lease, operation, identity)
       then Stores(w, w1, c, r') && Finishes(r, r', c, lease, operation, identity, w.ids)
       else w1 == w && r' == r
  }

  /** What a commit of `r'` settles. */
  lemma CommitSettles(w: World, n: nat, c: Connection, r: Record, r': Record, lease: Lease, operation: Operation,
      identity: Option<string>)
    requires FinishCommits(w, c, r, lease, operation, identity) && !SettlesQuietly(r, operation, identity)
    requires Finishes(r, r', c, lease, operation, identity, w.ids)
    ensures var (w1, ok) := Persist(w.(ids := n), c, r');
      && (!(operation == Activate && IdentityChanged(r, lease, identity)) ==>
            SettledAs(w, w1, if ok then Success(r') else Failure, c, r, r', lease, operation, identity))
      && (operation == Activate && IdentityChanged(r, lease, identity) ==>
            SettledAs(w, w1, Failure, c, r, r', lease, operation, identity))
  {
    hide Persist, Finishes, Stores, Standing, Drops, Activates, IdentityChanged;
    PersistStores(w.(ids := n), c, r');
    StoresLater(w, n, Persist(w.(ids := n), c, r').0, c, r');
  }

  lemma SettleOutcome(w: World, c: Connection, lease: Lease, operation: Operation, identity: Option<string>,
      r: Record) returns (r': Record)
    requires Found(w, c, r)
    ensures var (w1, out) := Settle(w, c, lease, operation, identity);
      SettledAs(w, w1, out, c, r, r', lease, operation, identity)
  {
    FoundIff(w, c, r);
    hide Persist, DropRecord, ActivateRecord, CancelRecord, State, Found, AsDropped, AsActivated, AsCancelled, Stores;
    r' := r;
    if FinishCommits(w, c, r, lease, operation, identity) {
      if Drops(r, lease, operation, identity) {
        r' := DropRecord(r, w.ids);
        DropIsDropped(r, w.ids);
        CommitSettles(w, w.ids + 3, c, r, r', lease, operation, identity);
      } else if Cancels(lease, operation) {
        r' := CancelRecord(r);
        CancelIsCancelled(r);
        CommitSettles(w, w.ids, c, r, r', lease, operation, identity);
        assert w.(ids := w.ids) == w;
      } else {
        r' := ActivateRecord(r, c, lease.action, lease.slot.value, identity.value, w.ids);
        ActivateIsActivated(r, c, lease, identity.value, w.ids);
        CommitSettles(w, w.ids + 1, c, r, r', lease, operation, identity);
      }
    }
  }

  /** `finish` ends the lease in every case and takes up the queue; who does not hold the lease
      changes nothing. */
  lemma FinishOutcome(w: World, owner: Owner, c: Connection, ticket: Id, operation: Operation,
      identity: Option<string>, r: Record) returns (w1: World, r': Record)
    requires Found(w, c, r)
    ensures var (w2, out) := Finish(w, owner, c, ticket, operation, identity); var l := w.lanes[c];
      if l.lease.Some? && l.lease.value.owner == owner && l.lease.value.ticket == ticket
      then SettledAs(w.(lanes := w.lanes[c := l.(lease := None)]), w1, out, c, r, r', l.lease.value, operation, identity)
           && w2 == Next(w1, c) && OwnLane(w1, w2, c) && w1.lanes[c].lease.None?
           && Served(w1.lanes[c], w2.lanes[c], w1.lanes[c].queue)
           && w1.lanes[c].queue == l.queue && w1.lanes[c].answers == l.answers
      else w2 == w && out.Failure?
  {
    w1, r' := w, r;
    if Holds(w, owner, c, ticket) {
      var w0, lease := WithoutLease(w, c), w.lanes[c].lease.value;
      w1 := Settle(w0, c, lease, operation, identity).0;
      SettleLane(w0, c, lease, operation, identity);
      hide Settle, Next, SettledAs;
      r' := SettleOutcome(w0, c, lease, operation, identity, r);
      NextServes(w1, c);
    }
  }

  lemma NothingFound(w: World, c: Connection)
    requires forall r :: !Found(w, c, r)
    ensures State(w, c).None?
  {
    if State(w, c).Some? { FoundIff(w, c, State(w, c).value); }
  }

  /** On an unreadable record every call on a lease fails; only the lease being finished is ended. */
  lemma UnreadableOutcome(w: World, owner: Owner, c: Connection, ticket: Id, operation: Operation,
      identity: Option<string>, cleaned: set<Slot>)
    requires forall r :: !Found(w, c, r)
    ensures Holds(w, owner, c, ticket) ==>
      Finish(w, owner, c, ticket, operation, identity) == (Next(WithoutLease(w, c), c), Failure)
    ensures PrepareMigration(w, owner, c, ticket) == (w, Failure) && QueueLegacyCleanup(w, owner, c, ticket) == (w, Failure)
    ensures AcknowledgeCleanup(w, owner, c, ticket, cleaned) == (w, Failure)
  {
    NothingFound(w, c);
    if w.lanes[c].lease.Some? { StateIgnoresLease(w, c, w.lanes[c].lease.value); }
    hide Next, State, Found, WithoutLease;
  }

  /** So does every call on its snapshot, unless the connection is closed: then no version is valid. */
  lemma UnreadableSnapshot(w: World, c: Connection, v: Option<Version>, payload: string, at: int)
    requires forall r :: !Found(w, c, r)
    ensures ClearSnapshot(w, c, v) == (w, Failure)
    ensures var fenced := w.lanes[c].fenced;
      && Valid(w, c, v) == (if fenced then Success(false) else Failure)
      && ReadSnapshot(w, c, v) == (w, if fenced then Success(None) else Failure)
      && WriteSnapshot(w, c, v, payload, at) == (w, if fenced then Success(false) else Failure)
      && UpgradeSnapshotTimestamp(w, c, v, payload, at) == (w, if fenced then Success(false) else Failure)
  {
    NothingFound(w, c);
    hide State, Found;
  }

  // ---- A vanished writer ----

  ghost predicate AsParked(r: Record, r': Record, n: nat) {
    && r'.mode == Some(Pending) && Renewed(r', n) && r'.slot.None? && r'.identity.None? && r'.cache == EmptyCache
    && NoPrevious(r') && r'.pendingSlot.None? && r'.previousBackupKey == r.previousBackupKey
    && r'.backupKey == r.backupKey && r'.backupSlot == r.backupSlot
    && r'.backupGeneration == r.backupGeneration && r'.backupRevision == r.backupRevision
    && forall s :: s in r'.retired <==> s in r.retired || r.slot == Some(s)
  }

  lemma DetachIsParked(r: Record, n: Id)
    ensures AsParked(r, DetachRecord(r, n), n)
  {
    forall s ensures s in DetachRecord(r, n).retired <==> s in r.retired || r.slot == Some(s) { RetireLists(r, r.slot, s); }
  }

  /** A vanished reader leaves the record alone; a vanished writer leaves it waiting for a new
      sign-in, or the connection closed when that cannot be stored. */
  lemma VanishedWriterParks(w: World, owner: Owner, c: Connection) returns (w1: World, r': Record)
    requires LeasedBy(w.lanes[c], owner)
    ensures var w0 := w.(lanes := w.lanes[c := w.lanes[c].(lease := None)], abandoned := w.abandoned + SlotOf(w.lanes[c]));
      && DetachLease(w, owner, c) == Next(w1, c)
      && if w.lanes[c].lease.value.action == Read then w1 == w0
         else (forall r :: Found(w, c, r) ==> Stores(w0, w1, c, r') && AsParked(r, r', w.ids))
              && ((forall r :: !Found(w, c, r)) ==> w1 == w0.(lanes := w0.lanes[c := w0.lanes[c].(fenced := true)]))
  {
    DetachLeaseResumes(w, owner, c);
    var w0 := Abandon(w, c);
    w1 := SetAside(w, c);
    r' := LegacyState;
    var o := State(w, c);
    assert State(w0, c) == o;
    forall r ensures Found(w, c, r) <==> o == Some(r) { FoundIff(w, c, r); }
    if o.Some? {
      r' := DetachRecord(o.value, w.ids);
      DetachIsParked(o.value, w.ids);
      PersistStores(w0.(ids := w.ids + 3), c, r');
      StoresLater(w0, w.ids + 3, Persist(w0.(ids := w.ids + 3), c, r').0, c, r');
      assert Found(w, c, o.value);
    }
    hide State, Persist, DetachRecord, Found, Next, AsParked, DetachLease, Stores;
  }

  // ---- prepareMigration ----

  /** A new slot to copy the original key to; unless a backup is being renewed, the record is
      barred for the time of the migration. */
  ghost predicate AsMigrating(r: Record, r': Record, n: nat, slot: Slot) {
    && slot.Minted? && slot.id >= n && (forall s :: s in r'.retired <==> s in r.retired || s == slot)
    && if r.mode == Some(Active) then r' == r.(retired := r'.retired)
       else r'.mode == Some(Migration) && Renewed(r', n)
            && r' == r.(retired := r'.retired, lifecycle := true, mode := r'.mode, cache := EmptyCache,
                        generation := r'.generation, revision := r'.revision, epoch := r'.epoch)
  }

  lemma MigrationIsMigrating(r: Record, c: Connection, n: Id)
    ensures AsMigrating(r, MigrationRecord(r, c, n), n, MigrationSlot(r, c, n))
  {
    var barred := if r.mode == Some(Active) then r else Barrier(r, Migration, n);
    forall s ensures s in MigrationRecord(r, c, n).retired <==> s in r.retired || s == MigrationSlot(r, c, n) {
      RetireLists(barred, Some(MigrationSlot(r, c, n)), s);
    }
  }

  predicate Migrates(r: Record, c: Connection, lease: Lease) {
    lease.action == Read && (r.mode == Some(Legacy) || r.mode == Some(Migration) || BackupStands(r, c))
  }

  /** The lease's slot moves whether or not the commit is saved; the record is stored as by any
      other commit. */
  ghost predicate MigratedAs(w: World, w1: World, out: Result<Record>, c: Connection, lease: Lease, r: Record,
      r': Record, slot: Slot)
  {
    && out == (if NextFault(w.disk).Saved? then Success(r') else Failure) && AsMigrating(r, r', w.ids, slot)
    && w1.lanes[c].lease == Some(lease.(slot := Some(slot), writable := if out.Success? then Some(slot) else lease.writable))
    && Stores(w, w1.(lanes := w1.lanes[c := w1.lanes[c].(lease := Some(lease))]), c, r')
  }

  /** Only a reader of a legacy record, of a migration or of a standing backup may migrate; its
      lease then writes the new slot. */
  lemma MigrationOutcome(w: World, owner: Owner, c: Connection, ticket: Id, r: Record) returns (r': Record, slot: Slot)
    requires Found(w, c, r)
    ensures var (w1, out) := PrepareMigration(w, owner, c, ticket); var lease := w.lanes[c].lease;
      if lease.Some? && lease.value.owner == owner && lease.value.ticket == ticket && Migrates(r, c, lease.value)
      then MigratedAs(w, w1, out, c, lease.value, r, r', slot) else w1 == w && out.Failure?
  {
    FoundIff(w, c, r);
    r', slot := MigrationRecord(r, c, w.ids), MigrationSlot(r, c, w.ids);
    MigrationIsMigrating(r, c, w.ids);
    hide State, MigrationRecord, MigrationSlot, MigrationIds, Found, AsMigrating, Persist, Stores, LegacyKey, MigratedAs;
    if w.lanes[c].lease.Some? {
      var lease := w.lanes[c].lease.value;
      if Migrates(r, c, lease) { MigrationCommits(w, c, lease, r, r', slot, w.ids + MigrationIds(r)); }
    }
  }

  /** The commit of a migration, with the lease's slot moved before it. */
  lemma MigrationCommits(w: World, c: Connection, lease: Lease, r: Record, r': Record, slot: Slot, n: nat)
    requires w.lanes[c].lease == Some(lease) && AsMigrating(r, r', w.ids, slot)
    ensures var held := Put(w.(ids := n), c, w.lanes[c].(lease := Some(lease.(slot := Some(slot)))));
            var (w1, ok) := Persist(held, c, r');
            var w2 := Put(w1, c, w1.lanes[c].(lease := Some(lease.(slot := Some(slot), writable := Some(slot)))));
      if ok then MigratedAs(w, w2, Success(r'), c, lease, r, r', slot) else MigratedAs(w, w1, Failure, c, lease, r, r', slot)
  {
    var held := Put(w.(ids := n), c, w.lanes[c].(lease := Some(lease.(slot := Some(slot)))));
    PersistStores(held, c, r');
    PersistLane(held, c, r');
    hide Persist, AsMigrating, Filed;
    var w1 := Persist(held, c, r').0;
    StoresBeside(w, held, w1, c, r');
    PutTwice(w1, c, w1.lanes[c].(lease := Some(lease.(slot := Some(slot), writable := Some(slot)))),
             w1.lanes[c].(lease := w.lanes[c].lease));
    hide Stores;
  }

  lemma StoresBeside(w: World, w0: World, w1: World, c: Connection, r: Record)
    requires Stores(w0, w1, c, r) && w0.disk == w.disk && w0.abandoned == w.abandoned
    requires forall x :: w0.lanes[x] == if x == c then w.lanes[c].(lease := w0.lanes[c].lease) else w.lanes[x]
    ensures Stores(w, Put(w1, c, w1.lanes[c].(lease := w.lanes[c].lease)), c, r)
  {
    var w2 := Put(w1, c, w1.lanes[c].(lease := w.lanes[c].lease));
    assert forall x :: x != c ==> w2.lanes[x] == w1.lanes[x];
  }

  // ---- Cleanup of an old pasted key ----

  ghost predicate AsListed(r: Record, r': Record, n: nat, slot: Slot) {
    && (forall s :: s in r'.retired <==> s in r.retired || s == slot)
    && if r.generation.Some? then r' == r.(retired := r'.retired)
       else r'.mode == Some(Legacy) && Renewed(r', n)
            && r' == r.(retired := r'.retired, lifecycle := true, mode := r'.mode, cache := EmptyCache,
                        generation := r'.generation, revision := r'.revision, epoch := r'.epoch)
  }

  /** The holder of a plan connection's lease gets the pasted key listed; a refused commit
      closes nothing. */
  lemma LegacyCleanupOutcome(w: World, owner: Owner, c: Connection, ticket: Id, r: Record) returns (r': Record)
    requires Found(w, c, r)
    ensures var (w1, out) := QueueLegacyCleanup(w, owner, c, ticket); var l := w.lanes[c];
      if l.lease.Some? && l.lease.value.owner == owner && l.lease.value.ticket == ticket && (c == AnthropicPlan || c == OpenaiPlan)
      then (out.Success? <==> NextFault(w.disk).Saved?) && (out.Success? ==> Filed(w1, c, r'))
           && AsListed(r, r', w.ids, PastedSecret(c)) && w1.lanes == w.lanes && w1.abandoned == w.abandoned
      else w1 == w && out.Failure?
  {
    FoundIff(w, c, r);
    var barred := if r.generation.Some? then r else Barrier(r, Legacy, w.ids);
    r' := Retire(barred, Some(PastedSecret(c)));
    forall s ensures s in r'.retired <==> s in r.retired || s == PastedSecret(c) { RetireLists(barred, Some(PastedSecret(c)), s); }
    hide State, Found;
  }

  predicate Acknowledged(w: World, r: Record, c: Connection, lease: Lease, cleaned: set<Slot>, s: Slot) {
    s in cleaned && !Needs(r, c, s) && lease.slot != Some(s) && s !in w.abandoned
  }

  /** An acknowledgement takes exactly the acknowledged keys nobody needs off the list, and
      writes nothing else. */
  lemma AcknowledgeOutcome(w: World, owner: Owner, c: Connection, ticket: Id, cleaned: set<Slot>, r: Record)
    returns (r': Record)
    requires Found(w, c, r)
    ensures var (w1, out) := AcknowledgeCleanup(w, owner, c, ticket, cleaned); var l := w.lanes[c];
      if l.lease.Some? && l.lease.value.owner == owner && l.lease.value.ticket == ticket
      then out == Success(NextFault(w.disk).Saved?) && (out == Success(true) ==> Filed(w1, c, r'))
           && r' == (if c in w.disk.visible then r else Blank).(retired := r'.retired)
           && (forall s :: s in r'.retired <==> s in r.retired && !Acknowledged(w, r, c, l.lease.value, cleaned, s))
           && w1.lanes == w.lanes && w1.abandoned == w.abandoned && w1.ids == w.ids
      else w1 == w && out.Failure?
  {
    FoundIff(w, c, r);
    r' := r;
    if Holds(w, owner, c, ticket) {
      var lease := w.lanes[c].lease.value;
      var slots := Unacknowledged(r.retired, cleaned, r, c, lease.slot, w.abandoned);
      r' := (if c in w.disk.visible then r else Blank).(retired := slots);
      forall s ensures s in slots <==> s in r.retired && !Acknowledged(w, r, c, lease, cleaned, s) {
        UnacknowledgedSubset(r.retired, cleaned, r, c, lease.slot, w.abandoned, s);
        GuardedIsNeeded(r, c, s);
      }
      hide Unacknowledged, Guarded, Needs, State;
    }
  }

  // ---- Snapshots ----

  /** The version is the record's own, and nothing has been cut off since it was quoted. */
  predicate Accepts(r: Record, v: Option<Version>) {
    && v.Some? && r.mode == Some(Active) && r.generation.Some? && v.value.generation == r.generation
    && r.identity.Some? && v.value.identity == r.identity && r.epoch.Some? && v.value.epoch == r.epoch
  }

  lemma ValidIff(w: World, c: Connection, v: Option<Version>, r: Record)
    requires Found(w, c, r)
    ensures Valid(w, c, v) == Success(!w.lanes[c].fenced && Accepts(r, v))
  {
    FoundIff(w, c, r);
  }

  predicate AllValid(w: World, versions: seq<(Connection, Option<Version>)>) {
    forall i :: 0 <= i < |versions| ==> Valid(w, versions[i].0, versions[i].1) == Success(true)
  }

  /** Several versions are valid when each one is; the first that is not decides the answer. */
  lemma {:induction false} ValidAllIff(w: World, versions: seq<(Connection, Option<Version>)>, k: nat)
    ensures ValidAll(w, versions) == Success(true) <==> AllValid(w, versions)
    ensures k < |versions| && AllValid(w, versions[..k]) && Valid(w, versions[k].0, versions[k].1) != Success(true) ==>
      ValidAll(w, versions) == Valid(w, versions[k].0, versions[k].1)
    decreases |versions|
  {
    hide Valid;
    if versions != [] {
      var rest := versions[1..];
      ValidAllIff(w, rest, if k == 0 then 0 else k - 1);
      if 0 < k < |versions| {
        assert versions[..k][1..] == rest[..k - 1] && versions[..k][0] == versions[0];
        if AllValid(w, versions[..k]) { TailValid(w, versions[..k]); }
      }
      if AllValid(w, versions) { TailValid(w, versions); }
      if AllValid(w, rest) && Valid(w, versions[0].0, versions[0].1) == Success(true) { JoinValid(w, versions); }
    }
  }

  lemma TailValid(w: World, versions: seq<(Connection, Option<Version>)>)
    requires versions != [] && AllValid(w, versions)
    ensures AllValid(w, versions[1..]) && Valid(w, versions[0].0, versions[0].1) == Success(true)
  {
    hide Valid;
  }

  lemma JoinValid(w: World, versions: seq<(Connection, Option<Version>)>)
    requires versions != [] && AllValid(w, versions[1..]) && Valid(w, versions[0].0, versions[0].1) == Success(true)
    ensures AllValid(w, versions)
  {
    hide Valid;
    forall i | 0 <= i < |versions| ensures Valid(w, versions[i].0, versions[i].1) == Success(true) {
      if i > 0 { assert versions[i] == versions[1..][i - 1]; }
    }
  }

  /** A best-effort write of the record: its refusal closes nothing. */
  ghost predicate Writes(w: World, w1: World, c: Connection, r: Record) {
    && w1.lanes == w.lanes && w1.abandoned == w.abandoned && (NextFault(w.disk).Saved? ==> Filed(w1, c, r))
  }

  predicate Cleared(r: Record, r': Record, n: nat) {
    r' == r.(epoch := r'.epoch, cache := EmptyCache) && r'.epoch.Some? && r'.epoch.value >= n
  }

  /** A version that is not current clears nothing, and neither does a legacy record; both are
      reported as done. */
  lemma ClearOutcome(w: World, c: Connection, v: Option<Version>, r: Record) returns (r': Record)
    requires Found(w, c, r)
    ensures var (w1, out) := ClearSnapshot(w, c, v);
      if (v.Some? && !Accepts(r, v)) || r.mode == Some(Legacy) then w1 == w && out == Success(())
      else Cleared(r, r', w.ids) && Writes(w, w1, c, r') && (out.Success? <==> NextFault(w.disk).Saved?)
  {
    FoundIff(w, c, r);
    r' := r.(epoch := Some(w.ids), cache := EmptyCache);
    hide State, Found;
  }

  /** A payload of another format is cleared rather than read. */
  lemma ReadOutcome(w: World, c: Connection, v: Option<Version>, r: Record) returns (r': Record)
    requires Found(w, c, r)
    ensures var (w1, out) := ReadSnapshot(w, c, v);
      if w.lanes[c].fenced || !Accepts(r, v) then w1 == w && out == Success(None)
      else if r.cache.payload.Some? && r.cache.version != Some("1") then
        Cleared(r, r', w.ids) && Writes(w, w1, c, r') && out == if NextFault(w.disk).Saved? then Success(None) else Failure
      else w1 == w && out == Success(if r.cache.version == Some("1") then r.cache.payload else None)
  {
    FoundIff(w, c, r);
    ValidIff(w, c, v, r);
    hide Valid, State, Found, Writes, ClearSnapshot;
    r' := ClearOutcome(w, c, v, r);
  }

  /** The stored time, in microseconds, is a 64-bit number and later than `at`. */
  predicate StoredLater(cache: Cache, at: int) {
    && cache.at.Some? && cache.at.value.Number?
    && var stored := cache.at.value.value;
       && -0x8000_0000_0000_0000 <= stored <= 0x7fff_ffff_ffff_ffff
       && if cache.micros then at < stored
          else -0x8000_0000_0000_0000 <= 1000 * stored <= 0x7fff_ffff_ffff_ffff && at < 1000 * stored
  }

  lemma WriteOutcome(w: World, c: Connection, v: Option<Version>, payload: string, at: int, r: Record)
    requires Found(w, c, r) && LongMin <= at <= LongMax
    ensures var (w1, out) := WriteSnapshot(w, c, v, payload, at);
      if w.lanes[c].fenced || !Accepts(r, v) || StoredLater(r.cache, at) then w1 == w && out == Success(false)
      else Writes(w, w1, c, r.(cache := Cache(Some(payload), Some(Number(at)), Some("1"), true)))
           && out == Success(NextFault(w.disk).Saved?)
  {
    FoundIff(w, c, r);
    ValidIff(w, c, v, r);
    hide Valid, State, Found;
  }

  /** Only the very payload is given a time in microseconds, and only once. */
  lemma UpgradeOutcome(w: World, c: Connection, v: Option<Version>, payload: string, at: int, r: Record)
    requires Found(w, c, r)
    ensures var (w1, out) := UpgradeSnapshotTimestamp(w, c, v, payload, at);
      if w.lanes[c].fenced || !Accepts(r, v) || r.cache.payload != Some(payload) then w1 == w && out == Success(false)
      else if r.cache.micros then w1 == w && out == Success(true)
      else Writes(w, w1, c, r.(cache := Cache(Some(payload), Some(Number(at)), r.cache.version, true)))
           && out == Success(NextFault(w.disk).Saved?)
  {
    FoundIff(w, c, r);
    ValidIff(w, c, v, r);
    hide Valid, State, Found;
  }
}
