/** What any events at all leave alone: a slot that no record mentions stays lost, one that no record
    names is named by nothing but its activation, and no superseded revision comes back. */
module LeaseMarks {
  import opened Wrappers
  import opened CredentialRecords
  import opened LeaseWorld
  import opened Safety
  import opened LeaseSteps
  import opened LeaseCalls
  import opened LeaseDetach
  import opened LeaseRuns
  import opened LeaseTheorems
  import opened LeaseOffers
  import opened LeaseMemory

  // ---- Marks that no edit removes ----

  /** Something that holds of a record and stays so through every edit. */
  datatype Mark =
    | Unmentioned(slot: Slot)   // neither listed nor named nor kept in any other way
    | Unnamed(slot: Slot)
    | Revised(since: nat)       // the credential revision was minted no earlier

  predicate Mentions(r: Record, slot: Slot) {
    || slot in r.retired || Names(r, slot)
    || r.pendingSlot == Some(slot) || r.backupKey == Some(slot) || r.previousBackupKey == Some(slot)
  }

  predicate Meets(o: Option<Record>, m: Mark) {
    match m
    case Unmentioned(slot) => o.Some? ==> !Mentions(o.value, slot)
    case Unnamed(slot) => o.Some? ==> !Names(o.value, slot)
    case Revised(since) => o.Some? && o.value.revision.Some? && o.value.revision.value >= since
  }

  /** Every id still to be minted from `n` on is too young to disturb the mark. */
  predicate Old(m: Mark, n: nat) {
    match m
    case Unmentioned(slot) => slot.Minted? && slot.id < n
    case Unnamed(slot) => slot.Minted?
    case Revised(since) => since <= n
  }

  predicate Avoids(m: Mark, s: Option<Slot>) { m.Unmentioned? ==> s != Some(m.slot) }

  /** Every record of the connection that could ever be read back meets the mark. */
  predicate AllMeet(w: World, c: Connection, m: Mark) {
    && Meets(Get(w.disk.visible, c), m) && Meets(Get(w.disk.durable, c), m)
    && (w.lanes[c].prior.Some? ==> Meets(w.lanes[c].prior, m))
  }

  /** And nobody holds a lease that could write or activate an unmentioned slot. */
  predicate Marked(w: World, c: Connection, m: Mark) {
    && Old(m, w.ids) && AllMeet(w, c, m) && (m.Revised? || m.slot.connection == c)
    && (w.lanes[c].lease.Some? ==> Avoids(m, w.lanes[c].lease.value.slot))
  }

  // ---- Edits ----

  lemma RetireMeets(r: Record, x: Option<Slot>, m: Mark)
    ensures Meets(Some(r), m) && Avoids(m, x) ==> Meets(Some(Retire(r, x)), m)
  {}

  lemma ReconnectMeets(r: Record, c: Connection, n: Id, m: Mark)
    requires Meets(Some(r), m) && Old(m, n)
    ensures Meets(Some(ReconnectRecord(r, c, n)), m)
  {
    LegacyHome(c);
    hide LegacyKey, Retire;
    var kept := Remember(r, c);
    RetireMeets(kept, kept.slot, m);
    RetireMeets(Retire(kept, kept.slot), Some(LegacyKey(c)), m);
    var two := Retire(Retire(kept, kept.slot), Some(LegacyKey(c)));
    var cleared := RemoveBackup(Barrier(two, Pending, n).(slot := None, identity := None));
    RetireMeets(cleared, Some(Minted(c, n + 3)), m);
    hide Remember;
  }

  lemma DeleteMeets(r: Record, c: Connection, n: Id, m: Mark)
    requires Meets(Some(r), m) && Old(m, n)
    ensures Meets(Some(DeleteRecord(r, c, n)), m)
  {
    LegacyHome(c);
    hide LegacyKey, Retire;
    RetireMeets(r, r.slot, m);
    var keys := Retire(Retire(r, r.slot), Some(LegacyKey(c)));
    RetireMeets(Retire(r, r.slot), Some(LegacyKey(c)), m);
    RetireMeets(keys, Some(CompanionConfig), m);
    RetireMeets(keys, Some(PastedSecret(AnthropicPlan)), m);
  }

  lemma MigrationMeets(r: Record, c: Connection, n: Id, m: Mark)
    requires Meets(Some(r), m) && Old(m, n)
    ensures Meets(Some(MigrationRecord(r, c, n)), m) && Avoids(m, Some(MigrationSlot(r, c, n)))
  {
    RetireMeets(if r.mode == Some(Active) then r else Barrier(r, Migration, n), Some(MigrationSlot(r, c, n)), m);
    hide Retire;
  }

  lemma ActivateMeets(r: Record, c: Connection, action: Action, s: Slot, identity: string, n: Id, m: Mark)
    requires Meets(Some(r), m) && Old(m, n) && (m.Revised? || m.slot != s)
    ensures Meets(Some(ActivateRecord(r, c, action, s, identity, n)), m)
  {
    hide LegacyKey, Retire;
    LegacyHome(c);
    var migrated := if r.mode == Some(Migration) then r.(backupKey := Some(LegacyKey(c))) else r;
    RetireMeets(migrated, migrated.backupKey, m);
    var owned := if action == Complete || action == Refresh then RemoveBackup(Retire(migrated, migrated.backupKey)) else migrated;
    RetireMeets(owned, owned.slot, m);
  }

  lemma OtherEditsMeets(r: Record, n: Id, m: Mark)
    requires Meets(Some(r), m) && Old(m, n)
    ensures Meets(Some(CancelRecord(r)), m) && Meets(Some(DropRecord(r, n)), m)
    ensures Meets(Some(DetachRecord(r, n)), m)
  {
    RetireMeets(r, r.slot, m);
    hide Retire;
  }

  /** A commit on any connection, fencing or not. */
  lemma CommitMarks(w: World, w1: World, x: Connection, r': Record, c: Connection, m: Mark)
    requires Marked(w, c, m) && w.ids <= w1.ids && w1.disk == Commit(w.disk, w.disk.visible[x := r']).0
    requires w1.lanes[c].prior == w.lanes[c].prior || w1.lanes[c].prior == Some(Known(w.disk.visible, c))
    requires w1.lanes[c].lease == w.lanes[c].lease && (x == c ==> Meets(Some(r'), m))
    ensures Marked(w1, c, m)
  {
    hide Commit, Get, Known, Names;
    CommitListed(w.disk, w1.disk, x, r', c, LegacyKey(c));
    KnownIs(w.disk.visible, c);
    AbsentLegacy(w.disk.visible, c, m);
  }

  lemma AbsentLegacy(v: Store, c: Connection, m: Mark)
    ensures Meets(Get(v, c), m) ==> Meets(Some(Known(v, c)), m)
  {}

  lemma PersistMarks(w: World, x: Connection, n: nat, r': Record, c: Connection, m: Mark)
    requires Marked(w, c, m) && w.ids <= n && (x == c ==> Meets(Some(r'), m))
    ensures Marked(Persist(w.(ids := n), x, r').0, c, m) && Marked(SoftPersist(w.(ids := n), x, r').0, c, m)
  {
    hide Commit, Meets, Known;
    CommitMarks(w, Persist(w.(ids := n), x, r').0, x, r', c, m);
    CommitMarks(w, SoftPersist(w.(ids := n), x, r').0, x, r', c, m);
  }

  /** Only lanes moved, and no lease for an unmentioned slot came up. */
  lemma LanesMarks(w: World, w1: World, c: Connection, m: Mark)
    requires Marked(w, c, m) && w.ids <= w1.ids && w1.disk == w.disk
    requires w1.lanes[c].prior == w.lanes[c].prior || w1.lanes[c].prior.None?
    requires w1.lanes[c].lease == w.lanes[c].lease || w1.lanes[c].lease.None?
          || Avoids(m, w1.lanes[c].lease.value.slot)
    ensures Marked(w1, c, m)
  {
    hide Meets;
  }

  lemma StateMeets(w: World, c: Connection, m: Mark)
    requires Marked(w, c, m)
    ensures State(w, c).Some? ==> Meets(State(w, c), m)
    ensures Ground(w, c).Some? ==> Meets(Ground(w, c), m)
  {}

  lemma GrantMarks(w: World, x: Connection, p: Request, ticket: Id, s: Option<Slot>, r: Record, c: Connection, m: Mark)
    requires Marked(w, c, m) && (x == c ==> Avoids(m, s))
    ensures Marked(Grant(w, x, p, ticket, s, r), c, m)
  {
    GrantDisk(w, x, p, ticket, s, r);
    LanesMarks(w, Grant(w, x, p, ticket, s, r), c, m) by { hide Cleanup, ViewOf, Elements, AllMeet, LegacyKey; }
    hide Marked, Grant;
  }

  lemma ReplyMarks(w: World, x: Connection, a: Answer, c: Connection, m: Mark)
    requires Marked(w, c, m)
    ensures Marked(Reply(w, x, a), c, m)
  {
    hide AllMeet;
    LanesMarks(w, Reply(w, x, a), c, m);
  }

  lemma UnfenceMarks(w: World, x: Connection, c: Connection, m: Mark)
    requires Marked(w, c, m)
    ensures Marked(Unfence(w, x), c, m)
  {
    hide AllMeet;
    LanesMarks(w, Unfence(w, x), c, m);
  }

  lemma AbsentPending(r: Record, m: Mark)
    ensures Meets(Some(r), m) ==> Avoids(m, r.pendingSlot)
  {}

  lemma MarkIsOld(w: World, c: Connection, m: Mark)
    requires Marked(w, c, m)
    ensures Old(m, w.ids)
  {}

  lemma ReconnectMarks(w: World, x: Connection, p: Request, ticket: Id, r: Record, c: Connection, m: Mark)
    requires Marked(w, c, m) && (x == c ==> Meets(Some(r), m))
    ensures var r' := ReconnectRecord(r, x, w.ids); var w1 := Persist(w.(ids := w.ids + 4), x, r').0;
      && Marked(Grant(Unfence(w1, x), x, p, ticket, r'.pendingSlot, r'), c, m)
      && Marked(Reply(w1, x, Failed(p.number)), c, m)
  {
    hide Marked, Meets, Grant, Reply, Unfence, Persist, ReconnectRecord;
    var n := w.ids;
    MarkIsOld(w, c, m);
    if x == c { ReconnectMeets(r, c, n, m); }
    LeaseMemory.ReconnectKeeps(r, x, n, LegacyKey(x));
    var r' := ReconnectRecord(r, x, n);
    PersistMarks(w, x, n + 4, r', c, m);
    var w1 := Persist(w.(ids := n + 4), x, r').0;
    ReplyMarks(w1, x, Failed(p.number), c, m);
    UnfenceMarks(w1, x, c, m);
    GrantMarks(Unfence(w1, x), x, p, ticket, r'.pendingSlot, r', c, m);
  }

  lemma DeleteMarks(w: World, x: Connection, p: Request, ticket: Id, r: Record, c: Connection, m: Mark)
    requires Marked(w, c, m) && (x == c ==> Meets(Some(r), m))
    ensures var r' := DeleteRecord(r, x, w.ids); var w1 := Persist(w.(ids := w.ids + 3), x, r').0;
      Marked(Grant(w1, x, p, ticket, None, r'), c, m) && Marked(Reply(w1, x, Failed(p.number)), c, m)
  {
    hide Marked, Meets, Grant, Reply, Persist, DeleteRecord;
    MarkIsOld(w, c, m);
    if x == c { DeleteMeets(r, c, w.ids, m); }
    var r' := DeleteRecord(r, x, w.ids);
    PersistMarks(w, x, w.ids + 3, r', c, m);
    var w1 := Persist(w.(ids := w.ids + 3), x, r').0;
    ReplyMarks(w1, x, Failed(p.number), c, m);
    GrantMarks(w1, x, p, ticket, None, r', c, m);
  }

  lemma RefreshMarks(w: World, x: Connection, p: Request, ticket: Id, r: Record, c: Connection, m: Mark)
    requires Marked(w, c, m) && (x == c ==> Meets(Some(r), m))
    ensures var r' := RefreshRecord(r, x, w.ids); var w1 := Persist(w.(ids := w.ids + 1), x, r').0;
      && Marked(Grant(w1, x, p, ticket, Some(Minted(x, w.ids)), r'), c, m)
      && Marked(Reply(w1, x, Failed(p.number)), c, m)
  {
    hide Marked, Meets, Grant, Reply, Persist, RefreshRecord;
    MarkIsOld(w, c, m);
    if x == c { RetireMeets(r, Some(Minted(x, w.ids)), m); }
    RefreshIsRetire(r, x, w.ids);
    var r' := RefreshRecord(r, x, w.ids);
    PersistMarks(w, x, w.ids + 1, r', c, m);
    var w1 := Persist(w.(ids := w.ids + 1), x, r').0;
    ReplyMarks(w1, x, Failed(p.number), c, m);
    GrantMarks(w1, x, p, ticket, Some(Minted(x, w.ids)), r', c, m);
  }

  lemma AttemptOnMarks(w: World, x: Connection, p: Request, ticket: Id, r: Record, c: Connection, m: Mark)
    requires Marked(w, c, m) && (x == c ==> Meets(Some(r), m))
    ensures Marked(AttemptOn(w, x, p, ticket, r), c, m)
  {
    hide Marked, Meets, Grant, Reply, Unfence, Persist, DeleteRecord, RefreshRecord, ReconnectRecord, Matches;
    AbsentPending(r, m);
    ReplyMarks(w, x, Failed(p.number), c, m);
    match p.action {
      case Reconnect => ReconnectMarks(w, x, p, ticket, r, c, m);
      case Delete => DeleteMarks(w, x, p, ticket, r, c, m);
      case Refresh => RefreshMarks(w, x, p, ticket, r, c, m);
      case Read => GrantMarks(w, x, p, ticket, None, r, c, m);
      case UnknownAction =>
      case Complete => GrantMarks(w, x, p, ticket, r.pendingSlot, r, c, m);
      case Cancel => GrantMarks(w, x, p, ticket, r.pendingSlot, r, c, m);
    }
  }

  lemma MintMarks(w: World, n: nat, c: Connection, m: Mark)
    requires Marked(w, c, m) && w.ids <= n
    ensures Marked(w.(ids := n), c, m)
  {
    hide AllMeet;
    LanesMarks(w, w.(ids := n), c, m);
  }

  lemma AttemptMarks(w: World, x: Connection, p: Request, c: Connection, m: Mark)
    requires Marked(w, c, m)
    ensures Marked(Attempt(w, x, p), c, m)
  {
    hide Marked, Meets, AttemptOn, Matches, Ground, Barred, Reply;
    StateMeets(w, c, m);
    ReplyMarks(w, x, Failed(p.number), c, m);
    ReplyMarks(w, x, Declined(p.number), c, m);
    MintMarks(w, w.ids + 1, c, m);
    if Ground(w, x).Some? {
      assert Ground(w, x) == Some(Ground(w, x).value);
      AttemptOnMarks(w.(ids := w.ids + 1), x, p, w.ids, Ground(w, x).value, c, m);
    }
  }

  lemma {:induction false} NextMarks(w: World, x: Connection, c: Connection, m: Mark)
    requires Marked(w, c, m)
    ensures Marked(Next(w, x), c, m)
    decreases |w.lanes[x].queue|, 0
  {
    hide Marked, Attempt, Start;
    var q := w.lanes[x].queue;
    if q != [] {
      var w1 := Put(w, x, w.lanes[x].(queue := q[1..]));
      LanesMarks(w, w1, c, m);
      StartMarks(w1, x, q[0], c, m);
    }
  }

  lemma {:induction false} StartMarks(w: World, x: Connection, p: Request, c: Connection, m: Mark)
    requires Marked(w, c, m)
    ensures Marked(Start(w, x, p), c, m)
    decreases |w.lanes[x].queue|, 1
  {
    hide Marked, Attempt, Next;
    AttemptMarks(w, x, p, c, m);
    AttemptKeepsQueue(w, x, p);
    var w1 := Attempt(w, x, p);
    if w1.lanes[x].lease.None? { NextMarks(w1, x, c, m); }
  }

  lemma DropMarks(w: World, x: Connection, r: Record, c: Connection, m: Mark)
    requires Marked(w, c, m) && (x == c ==> Meets(Some(r), m))
    ensures Marked(Persist(w.(ids := w.ids + 3), x, DropRecord(r, w.ids)).0, c, m)
    ensures Marked(Persist(w, x, CancelRecord(r)).0, c, m)
  {
    hide Marked, Meets, Persist, CancelRecord, DropRecord;
    MarkIsOld(w, c, m);
    if x == c { OtherEditsMeets(r, w.ids, m); }
    assert w.(ids := w.ids) == w;
    PersistMarks(w, x, w.ids + 3, DropRecord(r, w.ids), c, m);
    PersistMarks(w, x, w.ids, CancelRecord(r), c, m);
  }

  lemma ActivateMarks(w: World, x: Connection, r: Record, action: Action, s: Slot, identity: string, c: Connection,
      m: Mark)
    requires Marked(w, c, m) && (x == c ==> Meets(Some(r), m) && (m.Revised? || s != m.slot))
    ensures Marked(Persist(w.(ids := w.ids + 1), x, ActivateRecord(r, x, action, s, identity, w.ids)).0, c, m)
  {
    hide Marked, Meets, Persist, ActivateRecord;
    MarkIsOld(w, c, m);
    if x == c { ActivateMeets(r, x, action, s, identity, w.ids, m); }
    PersistMarks(w, x, w.ids + 1, ActivateRecord(r, x, action, s, identity, w.ids), c, m);
  }

  lemma SettleMarks(w: World, x: Connection, lease: Lease, operation: Operation, identity: Option<string>,
      c: Connection, m: Mark)
    requires Marked(w, c, m) && (x == c && operation == Activate && !m.Revised? ==> lease.slot != Some(m.slot))
    ensures Marked(Settle(w, x, lease, operation, identity).0, c, m)
  {
    StateMeets(w, c, m);
    NothingSettles(w, x, lease, operation, identity);
    hide Marked, Meets, Persist, State, CancelRecord, DropRecord, ActivateRecord, Settle;
    if State(w, x).Some? {
      var r := State(w, x).value;
      assert State(w, x) == Some(r);
      SettleShape(w, x, lease, operation, identity);
      DropMarks(w, x, r, c, m);
      if operation == Activate && lease.slot.Some? && identity.Some? {
        ActivateMarks(w, x, r, lease.action, lease.slot.value, identity.value, c, m);
      }
    }
  }

  lemma NothingSettles(w: World, x: Connection, lease: Lease, operation: Operation, identity: Option<string>)
    ensures State(w, x).None? ==> Settle(w, x, lease, operation, identity).0 == w
  {
    hide State;
  }

  lemma FinishMarks(w: World, owner: Owner, x: Connection, ticket: Id, operation: Operation, identity: Option<string>,
      c: Connection, m: Mark)
    requires Marked(w, c, m)
    requires m.Unnamed? ==> !ActivatesSlot(w, FinishCall(owner, x, ticket, operation, identity), m.slot)
    ensures Marked(Finish(w, owner, x, ticket, operation, identity).0, c, m)
  {
    if Holds(w, owner, x, ticket) {
      var lease := w.lanes[x].lease.value;
      assert x == c && operation == Activate && !m.Revised? ==> lease.slot != Some(m.slot);
      hide Marked, Settle, Next;
      LanesMarks(w, WithoutLease(w, x), c, m);
      SettleMarks(WithoutLease(w, x), x, lease, operation, identity, c, m);
      NextMarks(Settle(WithoutLease(w, x), x, lease, operation, identity).0, x, c, m);
    }
  }

  lemma AcquireMarks(w: World, owner: Owner, x: Connection, action: Action, expected: Option<Version>,
      fetchTicket: Option<Id>, c: Connection, m: Mark)
    requires Marked(w, c, m)
    ensures Marked(Acquire(w, owner, x, action, expected, fetchTicket), c, m)
  {
    hide Marked, Start;
    var l := w.lanes[x];
    var p := Request(owner, action, expected, fetchTicket, l.arrived);
    if l.lease.Some? {
      LanesMarks(w, Acquire(w, owner, x, action, expected, fetchTicket), c, m);
    } else {
      var w1 := Put(w, x, l.(arrived := l.arrived + 1));
      LanesMarks(w, w1, c, m);
      StartMarks(w1, x, p, c, m);
    }
  }

  lemma PrepareMarks(w: World, owner: Owner, x: Connection, ticket: Id, c: Connection, m: Mark)
    requires Marked(w, c, m)
    ensures Marked(PrepareMigration(w, owner, x, ticket).0, c, m)
  {
    hide Marked, Meets, Persist, State, MigrationRecord, MigrationSlot, MigrationIds, PrepareMigration, ValidBackup;
    var w2 := PrepareMigration(w, owner, x, ticket).0;
    if w2 != w {
      MigrateShape(w, owner, x, ticket);
      var r := State(w, x).value;
      var w0, n := WithoutLease(w, x), w.ids + MigrationIds(r);
      var w1 := Persist(w0.(ids := n), x, MigrationRecord(r, x, w.ids)).0;
      StateMeets(w, c, m);
      MarkIsOld(w, c, m);
      assert State(w, x) == Some(r);
      if x == c { MigrationMeets(r, c, w.ids, m); }
      FreeLaneMarks(w, x, c, m);
      PersistMarks(w0, x, n, MigrationRecord(r, x, w.ids), c, m);
      RejoinMarks(w1, x, w2.lanes[x].lease, c, m);
    }
  }

  lemma FreeLaneMarks(w: World, x: Connection, c: Connection, m: Mark)
    requires Marked(w, c, m)
    ensures Marked(WithoutLease(w, x), c, m)
  {
    hide AllMeet;
    LanesMarks(w, WithoutLease(w, x), c, m);
  }

  lemma RejoinMarks(w: World, x: Connection, lease: Option<Lease>, c: Connection, m: Mark)
    requires Marked(w, c, m) && lease.Some? && (x == c ==> Avoids(m, lease.value.slot))
    ensures Marked(Put(w, x, w.lanes[x].(lease := lease)), c, m)
  {
    hide AllMeet;
    LanesMarks(w, Put(w, x, w.lanes[x].(lease := lease)), c, m);
  }

  lemma AcknowledgeMarks(w: World, owner: Owner, x: Connection, ticket: Id, cleaned: set<Slot>, c: Connection, m: Mark)
    requires Marked(w, c, m)
    ensures Marked(AcknowledgeCleanup(w, owner, x, ticket, cleaned).0, c, m)
  {
    StateMeets(w, c, m);
    if Holds(w, owner, x, ticket) && State(w, x).Some? {
      var r := State(w, x).value;
      if m.Unmentioned? { UnacknowledgedSubset(r.retired, cleaned, r, x, w.lanes[x].lease.value.slot, w.abandoned, m.slot); }
      var slots := Unacknowledged(r.retired, cleaned, r, x, w.lanes[x].lease.value.slot, w.abandoned);
      var base := if x in w.disk.visible then w.disk.visible[x] else Blank;
      assert x == c ==> Meets(Some(base.(retired := slots)), m) by { BaseMeets(w, c, m); }
      assert w.(ids := w.ids) == w;
      hide Marked, Meets, State, Unacknowledged, SoftPersist;
      PersistMarks(w, x, w.ids, base.(retired := slots), c, m);
    }
  }

  lemma BaseMeets(w: World, c: Connection, m: Mark)
    requires Marked(w, c, m)
    ensures Meets(Some(if c in w.disk.visible then w.disk.visible[c] else Blank), m)
  {}

  lemma QueuedMeets(r: Record, c: Connection, n: Id, m: Mark)
    requires Meets(Some(r), m) && Old(m, n)
    ensures Meets(Some(Retire(if r.generation.Some? then r else Barrier(r, Legacy, n), Some(PastedSecret(c)))), m)
  {
    hide Retire;
    RetireMeets(if r.generation.Some? then r else Barrier(r, Legacy, n), Some(PastedSecret(c)), m);
  }

  lemma QueueCleanupMarks(w: World, owner: Owner, x: Connection, ticket: Id, c: Connection, m: Mark)
    requires Marked(w, c, m)
    ensures Marked(QueueLegacyCleanup(w, owner, x, ticket).0, c, m)
  {
    hide Marked, Meets, State, Retire, SoftPersist, Barrier;
    StateMeets(w, c, m);
    MarkIsOld(w, c, m);
    if State(w, x).Some? {
      var r := State(w, x).value;
      assert State(w, x) == Some(r);
      if x == c { QueuedMeets(r, c, w.ids, m); }
      var barred := if r.generation.Some? then r else Barrier(r, Legacy, w.ids);
      PersistMarks(w, x, w.ids + if r.generation.Some? then 0 else 3, Retire(barred, Some(PastedSecret(x))), c, m);
    }
  }

  /** Snapshot calls change the epoch and the cache alone. */
  lemma SnapshotMarks(w: World, x: Connection, n: nat, r': Record, c: Connection, m: Mark)
    requires Marked(w, c, m) && State(w, x).Some? && w.ids <= n
    requires r' == State(w, x).value.(epoch := r'.epoch, cache := r'.cache)
    ensures Marked(SoftPersist(w.(ids := n), x, r').0, c, m)
  {
    StateMeets(w, c, m);
    assert x == c ==> Meets(Some(r'), m);
    hide Marked, Meets, State, SoftPersist;
    PersistMarks(w, x, n, r', c, m);
  }

  lemma SnapshotsMarks(w: World, x: Connection, v: Option<Version>, payload: string, at: int, c: Connection, m: Mark)
    requires Marked(w, c, m)
    ensures Marked(ClearSnapshot(w, x, v).0, c, m) && Marked(WriteSnapshot(w, x, v, payload, at).0, c, m)
    ensures Marked(UpgradeSnapshotTimestamp(w, x, v, payload, at).0, c, m)
  {
    hide Marked, State, SoftPersist, Same, EffectiveTime;
    if State(w, x).Some? {
      var r := State(w, x).value;
      assert w.(ids := w.ids) == w;
      SnapshotMarks(w, x, w.ids + 1, r.(epoch := Some(w.ids), cache := EmptyCache), c, m);
      SnapshotMarks(w, x, w.ids, r.(cache := Cache(Some(payload), Some(Number(at)), Some("1"), true)), c, m);
      SnapshotMarks(w, x, w.ids, r.(cache := r.cache.(at := Some(Number(at)), micros := true)), c, m);
    }
  }

  lemma DetachLeaseIs(w: World, owner: Owner, c: Connection)
    requires w.lanes[c].lease.Some? && w.lanes[c].lease.value.owner == owner
    ensures var w1 := Abandon(w, c);
      DetachLease(w, owner, c) ==
        if w.lanes[c].lease.value.action == Read then Next(w1, c)
        else if State(w1, c).None? then Next(Put(w1, c, w1.lanes[c].(fenced := true)), c)
        else Next(Persist(w1.(ids := w1.ids + 3), c, DetachRecord(State(w1, c).value, w1.ids)).0, c)
  {
    hide Next, Persist, State, DetachRecord;
  }

  lemma AbandonMarks(w: World, x: Connection, c: Connection, m: Mark)
    requires Marked(w, c, m) && w.lanes[x].lease.Some?
    ensures Marked(Abandon(w, x), c, m)
  {
    hide AllMeet;
    LanesMarks(w, Abandon(w, x), c, m);
  }

  lemma ParkMarks(w: World, x: Connection, c: Connection, m: Mark)
    requires Marked(w, c, m) && State(w, x).Some?
    ensures Marked(Persist(w.(ids := w.ids + 3), x, DetachRecord(State(w, x).value, w.ids)).0, c, m)
  {
    hide Marked, Meets, Persist, DetachRecord, State;
    StateMeets(w, c, m);
    assert State(w, x) == Some(State(w, x).value);
    MarkIsOld(w, c, m);
    if x == c { OtherEditsMeets(State(w, x).value, w.ids, m); }
    PersistMarks(w, x, w.ids + 3, DetachRecord(State(w, x).value, w.ids), c, m);
  }

  lemma FenceMarks(w: World, x: Connection, c: Connection, m: Mark)
    requires Marked(w, c, m)
    ensures Marked(Put(w, x, w.lanes[x].(fenced := true)), c, m)
  {
    hide AllMeet;
    LanesMarks(w, Put(w, x, w.lanes[x].(fenced := true)), c, m);
  }

  lemma DetachLeaseMarks(w: World, owner: Owner, x: Connection, c: Connection, m: Mark)
    requires Marked(w, c, m)
    ensures Marked(DetachLease(w, owner, x), c, m)
  {
    hide Marked, Next, Persist, State, DetachRecord, Abandon, Put, DetachLease;
    NoDetachment(w, owner, x);
    if w.lanes[x].lease.Some? && w.lanes[x].lease.value.owner == owner {
      DetachLeaseIs(w, owner, x);
      var w1 := Abandon(w, x);
      AbandonMarks(w, x, c, m);
      NextMarks(w1, x, c, m);
      if State(w1, x).Some? {
        ParkMarks(w1, x, c, m);
        NextMarks(Persist(w1.(ids := w1.ids + 3), x, DetachRecord(State(w1, x).value, w1.ids)).0, x, c, m);
      } else {
        FenceMarks(w1, x, c, m);
        NextMarks(Put(w1, x, w1.lanes[x].(fenced := true)), x, c, m);
      }
    }
  }

  lemma NoDetachment(w: World, owner: Owner, x: Connection)
    ensures w.lanes[x].lease.None? || w.lanes[x].lease.value.owner != owner ==> DetachLease(w, owner, x) == w
  {
    hide Next, Persist, State, DetachRecord;
  }

  lemma {:induction false} DetachLeasesMarks(w: World, owner: Owner, order: seq<Connection>, c: Connection, m: Mark)
    requires Marked(w, c, m)
    ensures Marked(DetachLeases(w, owner, order), c, m)
    decreases |order|
  {
    hide Marked, DetachLease;
    if order != [] {
      DetachLeaseMarks(w, owner, order[0], c, m);
      DetachLeasesMarks(DetachLease(w, owner, order[0]), owner, order[1..], c, m);
    }
  }

  lemma FetchMarks(w: World, owner: Owner, x: Connection, ticket: Id, c: Connection, m: Mark)
    requires Marked(w, c, m)
    ensures Marked(ReleaseFetch(w, owner, x, ticket), c, m) && Marked(AcquireFetch(w, owner, x), c, m)
  {
    hide Marked;
    LanesMarks(w, ReleaseFetch(w, owner, x, ticket), c, m);
    LanesMarks(w, AcquireFetch(w, owner, x), c, m);
  }

  lemma {:induction false} DetachFetchesMarks(w: World, owner: Owner, order: seq<Connection>, c: Connection, m: Mark)
    requires Marked(w, c, m)
    ensures Marked(DetachFetches(w, owner, order), c, m)
    decreases |order|
  {
    hide Marked, ReleaseFetch;
    if order != [] {
      var f := w.lanes[order[0]].fetch.lease;
      if f.Some? { FetchMarks(w, owner, order[0], f.value.ticket, c, m); }
      var w1 := if f.Some? && f.value.owner == owner then ReleaseFetch(w, owner, order[0], f.value.ticket) else w;
      DetachFetchesMarks(w1, owner, order[1..], c, m);
    }
  }

  lemma DetachMarks(w: World, owner: Owner, order: seq<Connection>, c: Connection, m: Mark)
    requires Marked(w, c, m)
    ensures Marked(Detach(w, owner, order), c, m)
  {
    hide Marked, DetachLeases, DetachFetches, Without, Gone;
    var a := DropAllFetchQueues(w, owner);
    LanesMarks(w, a, c, m);
    DetachFetchesMarks(a, owner, order, c, m);
    var b := DetachFetches(a, owner, order);
    LanesMarks(b, DropAllQueues(b, owner), c, m);
    DetachLeasesMarks(DropAllQueues(b, owner), owner, order, c, m);
  }

  lemma RestartMarks(w: World, c: Connection, m: Mark)
    requires Marked(w, c, m)
    ensures Marked(Restart(w), c, m)
  {
    IdleAt(c);
  }

  lemma EventMarks(w: World, e: Event, c: Connection, m: Mark)
    requires Marked(w, c, m) && (m.Unnamed? ==> !ActivatesSlot(w, e, m.slot))
    ensures Marked(Engine(w, e), c, m)
  {
    hide Marked, Acquire, Finish, PrepareMigration, QueueLegacyCleanup, AcknowledgeCleanup, ReleaseFetch, AcquireFetch,
      ClearSnapshot, WriteSnapshot, UpgradeSnapshotTimestamp, Detach, Restart, Valid, State;
    match e {
      case AcquireCall(owner, x, action, expected, fetchTicket) =>
        AcquireMarks(w, owner, x, action, expected, fetchTicket, c, m);
      case FinishCall(owner, x, ticket, operation, identity) => FinishMarks(w, owner, x, ticket, operation, identity, c, m);
      case PrepareCall(owner, x, ticket) => PrepareMarks(w, owner, x, ticket, c, m);
      case QueueCleanupCall(owner, x, ticket) => QueueCleanupMarks(w, owner, x, ticket, c, m);
      case AcknowledgeCall(owner, x, ticket, cleaned) => AcknowledgeMarks(w, owner, x, ticket, cleaned, c, m);
      case AcquireFetchCall(owner, x) => FetchMarks(w, owner, x, 0, c, m);
      case ReleaseFetchCall(owner, x, ticket) => FetchMarks(w, owner, x, ticket, c, m);
      case ReadCall(x, v) => SnapshotsMarks(w, x, v, "", 0, c, m);
      case WriteCall(x, v, payload, at) => SnapshotsMarks(w, x, v, payload, at, c, m);
      case UpgradeCall(x, v, payload, at) => SnapshotsMarks(w, x, v, payload, at, c, m);
      case ClearCall(x, v) => SnapshotsMarks(w, x, v, "", 0, c, m);
      case DetachCall(owner, order) => DetachMarks(w, owner, order, c, m);
      case RestartProcess => RestartMarks(w, c, m);
      case _ =>
    }
  }

  lemma {:induction false} RunMarks(s: System, events: seq<Event>, c: Connection, m: Mark)
    requires Marked(s.world, c, m) && !m.Unnamed?
    ensures Marked(Run(s, events).world, c, m)
    decreases |events|
  {
    hide Marked, Engine;
    if events != [] {
      EventMarks(s.world, events[0], c, m);
      RunMarks(After(s, events[0]), events[1..], c, m);
    }
  }

  // ---- A slot that is lost stays lost ----

  /** No record mentions the slot, and no lease is for it. */
  predicate Stray(w: World, c: Connection, slot: Slot) { Marked(w, c, Unmentioned(slot)) }

  /** A minted slot that no record mentions and no lease is for stays so through any events at
      all: it is never listed, offered for deletion, named or written under a new lease again. */
  lemma LostStaysLost(s: System, events: seq<Event>, c: Connection, slot: Slot)
    requires Stray(s.world, c, slot)
    ensures Stray(Run(s, events).world, c, slot)
  {
    RunMarks(s, events, c, Unmentioned(slot));
  }

  // ---- A slot is named by nothing but its activation ----

  lemma UnnamedMarks(w: World, c: Connection, slot: Slot)
    requires slot.Minted? && slot.connection == c
    ensures Marked(w, c, Unnamed(slot)) <==> !Restorable(w, c, slot)
  {}

  /** One event of any kind makes the records of a connection name a slot they did not name
      only if it activates that slot. */
  lemma NamedByActivation(s: System, e: Event, c: Connection, slot: Slot)
    requires slot.Minted? && slot.connection == c
    requires !Restorable(s.world, c, slot) && Restorable(After(s, e).world, c, slot)
    ensures ActivatesSlot(s.world, e, slot)
  {
    hide Engine, Restorable, Recorded;
    UnnamedMarks(s.world, c, slot);
    UnnamedMarks(After(s, e).world, c, slot);
    if !ActivatesSlot(s.world, e, slot) { EventMarks(s.world, e, c, Unnamed(slot)); }
  }

  lemma {:induction false} NamedSinceActivation(s: System, events: seq<Event>, c: Connection, slot: Slot)
    requires slot.Minted? && slot.connection == c
    requires Restorable(Run(s, events).world, c, slot) && !ActivatedIn(s, events, slot)
    ensures Restorable(s.world, c, slot)
    decreases |events|
  {
    hide After, Restorable, ActivatesSlot;
    if events != [] {
      NamedSinceActivation(After(s, events[0]), events[1..], c, slot);
      if !Restorable(s.world, c, slot) { NamedByActivation(s, events[0], c, slot); }
    }
  }

  lemma {:induction false} LaterNotActivated(s: System, a: seq<Event>, b: seq<Event>, slot: Slot)
    requires !ActivatedIn(s, a + b, slot)
    ensures !ActivatedIn(Run(s, a), b, slot)
    decreases |a|
  {
    hide After, ActivatesSlot;
    if a == [] {
      assert a + b == b;
    } else {
      assert (a + b)[1..] == a[1..] + b;
      LaterNotActivated(After(s, a[0]), a[1..], b, slot);
    }
  }

  /** A slot that some record names at the end of a run was named at every moment since its
      last activation, and no lease held at any of those moments had been offered it. */
  lemma NamedSlotsWereNotOffered(faults: nat -> Fault, ids: nat, secrets: map<Slot, Secret>, before: seq<Event>,
      since: seq<Event>, until: seq<Event>, c: Connection, slot: Slot)
    requires slot.Minted? && slot.connection == c
    requires Permitted(Fresh(faults, ids, secrets), before + (since + until))
    requires !ActivatedIn(Run(Fresh(faults, ids, secrets), before), since + until, slot)
    requires Restorable(Run(Fresh(faults, ids, secrets), before + (since + until)).world, c, slot)
    ensures var w := Run(Fresh(faults, ids, secrets), before + since).world; var l := w.lanes[c];
      && Restorable(w, c, slot)
      && (l.lease.Some? ==>
            l.answers != [] && l.answers[|l.answers| - 1].Granted? && slot !in l.answers[|l.answers| - 1].cleanup)
  {
    hide Run, Permitted, Fresh, ActivatedIn, Restorable, Guarded, Known;
    var start := Fresh(faults, ids, secrets);
    assert before + (since + until) == (before + since) + until;
    RunsJoin(start, before, since);
    RunsJoin(start, before + since, until);
    LaterNotActivated(Run(start, before), since, until, slot);
    NamedSinceActivation(Run(start, before + since), until, c, slot);
    OffersStayDisposable(faults, ids, secrets, before + since, c, slot);
    RestorableGuarded(Run(start, before + since).world, c, slot);
  }

  lemma RestorableGuarded(w: World, c: Connection, slot: Slot)
    requires Restorable(w, c, slot)
    ensures Guarded(Known(w.disk.visible, c), c, slot) || Guarded(Known(w.disk.durable, c), c, slot)
         || (w.lanes[c].prior.Some? && Guarded(w.lanes[c].prior.value, c, slot))
  {}
}
