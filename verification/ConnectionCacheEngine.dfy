/** The process-wide engine with its own mutable maps. Every method is proved to move the
    abstract state exactly as the function of the same name in LeaseWorld does; what that
    means for whole runs is proved there and in LeaseTheorems. */
module ConnectionCache {
  import opened Wrappers
  import opened CredentialRecords
  import opened LeaseWorld

  function At<T>(m: map<Connection, T>, c: Connection, absent: T): T { if c in m then m[c] else absent }

  function Lookup<T>(m: map<Connection, T>, c: Connection): Option<T> { if c in m then Some(m[c]) else None }

  /** The preferences file; `faults` scripts which commits are refused and what they leave. */
  class Backend {
    var visible: Store
    var durable: Store
    const faults: nat -> Fault
    var commits: nat

    ghost function AsDisk(): Disk
      reads this
    {
      Disk(visible, durable, faults, commits)
    }

    constructor (faults: nat -> Fault)
      ensures AsDisk() == Disk(map[], map[], faults, 0)
    {
      visible, durable, commits := map[], map[], 0;
      this.faults := faults;
    }

    method Commit(values: Store) returns (ok: bool)
      modifies this
      ensures AsDisk() == LeaseWorld.Commit(old(AsDisk()), values).0 && ok == LeaseWorld.Commit(old(AsDisk()), values).1
    {
      var fault := faults(commits);
      commits := commits + 1;
      match fault {
        case Saved => visible, durable := values, values;
        case Lost(memory, file) =>
          if memory { visible := values; }
          if file { durable := values; }
      }
      ok := fault.Saved?;
    }
  }

  lemma BackupFields(a: Record, b: Record, c: Connection)
    requires a.mode == b.mode && a.slot == b.slot && a.generation == b.generation && a.revision == b.revision
    requires a.backupKey == b.backupKey && a.backupSlot == b.backupSlot
    requires a.backupGeneration == b.backupGeneration && a.backupRevision == b.backupRevision
    ensures ValidBackup(a, c) == ValidBackup(b, c)
  {}

  lemma RefreshIs(r: Record, c: Connection, n: Id)
    ensures RefreshRecord(r, c, n) == Retire(r, Some(Minted(c, n)))
  {}

  class ConnectionCacheEngine {
    const backend: Backend
    var leases: map<Connection, Lease>
    var queues: map<Connection, seq<Request>>
    var fenced: set<Connection>
    var failedCommitPriorState: map<Connection, Record>
    var abandonedSlots: set<Slot>
    var fetches: map<Connection, FetchLease>
    var fetchQueues: map<Connection, seq<FetchRequest>>
    var nextId: nat
    // The callbacks delivered so far, and the calls they belong to.
    var answers: map<Connection, seq<Answer>>
    var calls: map<Connection, nat>
    var fetchAnswers: map<Connection, seq<FetchAnswer>>
    var fetchCalls: map<Connection, nat>
    ghost var dropped: map<Connection, set<nat>>
    ghost var fetchDropped: map<Connection, set<nat>>

    ghost function LaneOf(c: Connection): Lane
      reads this
    {
      Lane(Lookup(leases, c), At(queues, c, []), c in fenced, Lookup(failedCommitPriorState, c), At(answers, c, []),
           At(calls, c, 0), At(dropped, c, {}),
           FetchLane(Lookup(fetches, c), At(fetchQueues, c, []), At(fetchAnswers, c, []), At(fetchCalls, c, 0),
                     At(fetchDropped, c, {})))
    }

    ghost function AsWorld(): World
      reads this, backend
    {
      World(backend.AsDisk(), nextId, abandonedSlots, map c: Connection | true :: LaneOf(c))
    }

    /** How the fields show in the abstract state. */
    lemma Here(c: Connection)
      ensures var w := AsWorld(); var l := w.lanes[c];
        && w.disk == backend.AsDisk() && w.disk.visible == backend.visible && w.ids == nextId && w.abandoned == abandonedSlots
        && l.lease == Lookup(leases, c) && l.queue == At(queues, c, []) && l.fenced == (c in fenced)
        && l.prior == Lookup(failedCommitPriorState, c)
        && l.fetch.lease == Lookup(fetches, c) && l.fetch.queue == At(fetchQueues, c, [])
    {}

    /** Worlds are equal when their parts are. */
    lemma SameWorld(w: World)
      requires w.disk == backend.AsDisk() && w.ids == nextId && w.abandoned == abandonedSlots
      requires forall c :: w.lanes[c] == LaneOf(c)
      ensures AsWorld() == w
    {
      assert AsWorld().lanes == w.lanes;
    }

    constructor (backend: Backend, ids: nat)
      ensures this.backend == backend
      ensures AsWorld() == World(backend.AsDisk(), ids, {}, IdleLanes())
    {
      this.backend := backend;
      leases, queues, fenced, failedCommitPriorState, abandonedSlots := map[], map[], {}, map[], {};
      fetches, fetchQueues, nextId := map[], map[], ids;
      answers, calls, fetchAnswers, fetchCalls := map[], map[], map[], map[];
      dropped, fetchDropped := map[], map[];
      new;
      forall c ensures IdleLanes()[c] == LaneOf(c) {
        match c
        case OpenaiPlan => case OpenaiPlatform => case AnthropicPlan =>
        case AnthropicPlatform => case CursorPlan => case CursorPlatform =>
      }
      SameWorld(World(backend.AsDisk(), ids, {}, IdleLanes()));
    }

    // ---- Small steps ----

    method Unique() returns (id: Id)
      modifies this`nextId
      ensures id == old(nextId) && nextId == old(nextId) + 1
      ensures AsWorld() == old(AsWorld()).(ids := old(nextId) + 1)
    {
      id := nextId;
      nextId := nextId + 1;
      SameWorld(old(AsWorld()).(ids := nextId));
    }

    // ---- Edits, step by step ----

    method Bar(r: Record, mode: Mode) returns (state: Record)
      modifies this`nextId
      ensures state == Barrier(r, mode, old(nextId)) && nextId == old(nextId) + 3
      ensures AsWorld() == old(AsWorld()).(ids := old(nextId) + 3)
    {
      hide LaneOf;
      state := r.(lifecycle := true);
      var generation := Unique();
      var revision := Unique();
      var epoch := Unique();
      state := state.(generation := Some(generation), revision := Some(revision), epoch := Some(epoch), mode := Some(mode));
      state := state.(cache := EmptyCache);
    }

    method EditReconnect(r: Record, c: Connection) returns (state: Record)
      modifies this`nextId
      ensures state == ReconnectRecord(r, c, old(AsWorld()).ids)
      ensures AsWorld() == old(AsWorld()).(ids := old(AsWorld()).ids + 4)
    {
      hide LaneOf, Retire, Barrier, ValidBackup, LegacyKey;
      state := r;
      if state.mode == Some(Active) {
        state := state.(previousSlot := state.slot, previousIdentity := state.identity, previousMode := Some(Active));
        if ValidBackup(state, c) {
          state := state.(previousBackupKey := state.backupKey);
        } else {
          state := state.(previousBackupKey := None);
        }
        var asked := r.(previousSlot := r.slot, previousIdentity := r.identity, previousMode := Some(Active));
        assert ValidBackup(asked, c) == ValidBackup(r, c) by {
          BackupFields(r, r.(previousSlot := r.slot, previousIdentity := r.identity, previousMode := Some(Active)), c);
        }
      } else if state.mode == Some(Legacy) || state.mode == Some(Migration) {
        state := state.(previousSlot := None, previousIdentity := None, previousMode := Some(Legacy));
      } else if state.mode != Some(Pending) {
        state := state.(previousSlot := None, previousIdentity := None, previousMode := None);
      }
      assert state == Remember(r, c);
      state := Retire(state, state.slot);
      state := Retire(state, Some(LegacyKey(c)));
      hide Remember;
      state := Bar(state, Pending);
      state := RemoveBackup(state.(slot := None, identity := None));
      var id := Unique();
      state := Retire(state, Some(Minted(c, id)));
      state := state.(pendingSlot := Some(Minted(c, id)));
    }

    method EditDelete(r: Record, c: Connection) returns (state: Record)
      modifies this`nextId
      ensures state == DeleteRecord(r, c, old(AsWorld()).ids)
      ensures AsWorld() == old(AsWorld()).(ids := old(AsWorld()).ids + 3)
    {
      hide LaneOf, Retire, Barrier, LegacyKey;
      state := Retire(r, r.slot);
      state := Retire(state, Some(LegacyKey(c)));
      if c == OpenaiPlan { state := Retire(state, Some(CompanionConfig)); }
      if c == AnthropicPlan { state := Retire(state, Some(PastedSecret(AnthropicPlan))); }
      state := Bar(state, Deleted);
      state := state.(slot := None, identity := None);
      state := state.(previousSlot := None, previousIdentity := None, previousMode := None, pendingSlot := None,
                      previousBackupKey := None);
      state := RemoveBackup(state);
    }

    method EditMigration(r: Record, c: Connection) returns (slot: Slot, state: Record)
      modifies this`nextId
      ensures slot == MigrationSlot(r, c, old(AsWorld()).ids) && state == MigrationRecord(r, c, old(AsWorld()).ids)
      ensures AsWorld() == old(AsWorld()).(ids := old(AsWorld()).ids + MigrationIds(r))
    {
      hide LaneOf, Retire, Barrier;
      state := r;
      if state.mode != Some(Active) { state := Bar(state, Migration); }
      var id := Unique();
      slot := Minted(c, id);
      state := Retire(state, Some(slot));
    }

    method EditDetach(r: Record) returns (state: Record)
      modifies this`nextId
      ensures state == DetachRecord(r, old(AsWorld()).ids)
      ensures AsWorld() == old(AsWorld()).(ids := old(AsWorld()).ids + 3)
    {
      hide LaneOf, Retire, Barrier;
      state := Retire(r, r.slot);
      state := Bar(state, Pending);
      state := state.(slot := None, identity := None);
      state := state.(previousSlot := None, previousIdentity := None, previousMode := None, pendingSlot := None);
    }

    method EditActivate(r: Record, c: Connection, action: Action, slot: Slot, identity: string) returns (state: Record)
      modifies this`nextId
      ensures state == ActivateRecord(r, c, action, slot, identity, old(AsWorld()).ids)
      ensures AsWorld() == old(AsWorld()).(ids := old(AsWorld()).ids + 1)
    {
      hide LaneOf, Retire, BindBackup, LegacyKey;
      state := r;
      if state.mode == Some(Migration) { state := state.(backupKey := Some(LegacyKey(c))); }
      if action == Complete || action == Refresh { state := RemoveBackup(Retire(state, state.backupKey)); }
      state := Retire(state, state.slot);
      var revision := Unique();
      state := state.(slot := Some(slot), identity := Some(identity), revision := Some(revision), mode := Some(Active));
      state := BindBackup(state);
      state := state.(previousSlot := None, previousIdentity := None, previousMode := None, pendingSlot := None,
                      previousBackupKey := None);
    }

    method EditCancel(r: Record) returns (state: Record)
      ensures state == CancelRecord(r)
    {
      hide BindBackup;
      state := r.(previousSlot := None, previousIdentity := None, previousMode := None, previousBackupKey := None);
      if r.previousBackupKey.Some? { state := state.(backupKey := r.previousBackupKey); }
      state := state.(pendingSlot := None, mode := Some(if r.previousSlot.Some? then Active
                                                        else if r.previousMode == Some(Legacy) then Legacy else Deleted));
      if r.previousSlot.Some? { state := BindBackup(state.(slot := r.previousSlot, identity := r.previousIdentity)); }
    }

    method EditDrop(r: Record) returns (state: Record)
      modifies this`nextId
      ensures state == DropRecord(r, old(AsWorld()).ids)
      ensures AsWorld() == old(AsWorld()).(ids := old(AsWorld()).ids + 3)
    {
      hide LaneOf, Retire, Barrier;
      state := Retire(r, r.slot);
      state := Bar(state, Deleted);
      state := RemoveBackup(state.(slot := None, identity := None));
    }

    // ---- Storage ----

    method State(c: Connection) returns (r: Option<Record>)
      ensures r == LeaseWorld.State(AsWorld(), c)
    {
      var all := backend.visible;
      if c !in all { return Some(LegacyState); }
      if !Readable(all[c]) { return None; }
      return Some(all[c]);
    }

    /** Since `w`, only lane `c` has moved, to `l`; the rest of the process is as it now stands. */
    lemma Moved(w: World, c: Connection, l: Lane)
      requires LaneOf(c) == l && forall x :: x != c ==> LaneOf(x) == w.lanes[x]
      ensures AsWorld() == Put(w, c, l).(disk := backend.AsDisk(), ids := nextId, abandoned := abandonedSlots)
    {
      hide LaneOf;
      assert AsWorld().lanes == w.lanes[c := l];
    }

    method CommitRecord(c: Connection, r: Record) returns (ok: bool)
      modifies backend
      ensures var (d, saved) := LeaseWorld.Commit(old(AsWorld()).disk, old(AsWorld()).disk.visible[c := r]);
        AsWorld() == old(AsWorld()).(disk := d) && ok == saved
    {
      ok := backend.Commit(backend.visible[c := r]);
      SameWorld(old(AsWorld()).(disk := backend.AsDisk()));
      hide LaneOf;
    }

    method SetPrior(c: Connection, r: Record)
      modifies this`failedCommitPriorState
      ensures AsWorld() == Put(old(AsWorld()), c, old(AsWorld()).lanes[c].(prior := Some(r)))
    {
      failedCommitPriorState := failedCommitPriorState[c := r];
      Moved(old(AsWorld()), c, old(LaneOf(c)).(prior := Some(r)));
      hide LaneOf;
    }

    method Fence(c: Connection)
      modifies this`fenced
      ensures AsWorld() == Put(old(AsWorld()), c, old(AsWorld()).lanes[c].(fenced := true))
    {
      fenced := fenced + {c};
      Moved(old(AsWorld()), c, old(LaneOf(c)).(fenced := true));
      hide LaneOf;
    }

    method Persist(c: Connection, r: Record) returns (ok: bool)
      modifies this`fenced, this`failedCommitPriorState, backend
      ensures AsWorld() == LeaseWorld.Persist(old(AsWorld()), c, r).0 && ok == LeaseWorld.Persist(old(AsWorld()), c, r).1
    {
      Here(c);
      hide AsWorld, LaneOf, LeaseWorld.Commit;
      var prior := backend.visible;
      ok := CommitRecord(c, r);
      if !ok {
        ghost var w := AsWorld();
        Fence(c);
        if c !in failedCommitPriorState {
          ghost var l := AsWorld().lanes[c];
          SetPrior(c, if c in prior then prior[c] else LegacyState);
          PutTwice(w, c, l, AsWorld().lanes[c]);
        } else {
          Here(c);
        }
      }
    }

    method SoftPersist(c: Connection, r: Record) returns (ok: bool)
      modifies backend
      ensures AsWorld() == LeaseWorld.SoftPersist(old(AsWorld()), c, r).0 && ok == LeaseWorld.SoftPersist(old(AsWorld()), c, r).1
    {
      hide AsWorld, LaneOf, LeaseWorld.Commit;
      ok := CommitRecord(c, r);
    }

    method Reply(c: Connection, a: Answer)
      modifies this`answers
      ensures AsWorld() == LeaseWorld.Reply(old(AsWorld()), c, a)
    {
      answers := answers[c := At(answers, c, []) + [a]];
      Moved(old(AsWorld()), c, old(LaneOf(c)).(answers := old(At(answers, c, [])) + [a]));
      hide LaneOf;
    }

    method Unfence(c: Connection)
      modifies this`fenced, this`failedCommitPriorState
      ensures AsWorld() == LeaseWorld.Unfence(old(AsWorld()), c)
    {
      fenced := fenced - {c};
      failedCommitPriorState := failedCommitPriorState - {c};
      Moved(old(AsWorld()), c, old(LaneOf(c)).(fenced := false, prior := None));
      hide LaneOf;
    }

    method SetLease(c: Connection, lease: Lease)
      modifies this`leases
      ensures AsWorld() == Put(old(AsWorld()), c, old(AsWorld()).lanes[c].(lease := Some(lease)))
    {
      leases := leases[c := lease];
      Moved(old(AsWorld()), c, old(LaneOf(c)).(lease := Some(lease)));
      hide LaneOf;
    }

    method DropLease(c: Connection)
      modifies this`leases
      ensures AsWorld() == LeaseWorld.WithoutLease(old(AsWorld()), c)
    {
      leases := leases - {c};
      Moved(old(AsWorld()), c, old(LaneOf(c)).(lease := None));
      hide LaneOf;
    }

    method SetQueue(c: Connection, queue: seq<Request>)
      modifies this`queues
      ensures AsWorld() == Put(old(AsWorld()), c, old(AsWorld()).lanes[c].(queue := queue))
    {
      queues := if queue == [] then queues - {c} else queues[c := queue];
      Moved(old(AsWorld()), c, old(LaneOf(c)).(queue := queue));
      hide LaneOf;
    }

    method NumberCall(c: Connection) returns (number: nat)
      modifies this`calls
      ensures number == old(AsWorld()).lanes[c].arrived
      ensures AsWorld() == Put(old(AsWorld()), c, old(AsWorld()).lanes[c].(arrived := number + 1))
    {
      number := At(calls, c, 0);
      calls := calls[c := number + 1];
      Moved(old(AsWorld()), c, old(LaneOf(c)).(arrived := number + 1));
      hide LaneOf;
    }

    method SetFetch(c: Connection, lease: Option<FetchLease>)
      modifies this`fetches
      ensures var l := old(AsWorld()).lanes[c];
        AsWorld() == Put(old(AsWorld()), c, l.(fetch := l.fetch.(lease := lease)))
    {
      fetches := if lease.Some? then fetches[c := lease.value] else fetches - {c};
      ghost var l := old(LaneOf(c));
      Moved(old(AsWorld()), c, l.(fetch := l.fetch.(lease := lease)));
      hide LaneOf;
    }

    method SetFetchQueue(c: Connection, queue: seq<FetchRequest>)
      modifies this`fetchQueues
      ensures var l := old(AsWorld()).lanes[c];
        AsWorld() == Put(old(AsWorld()), c, l.(fetch := l.fetch.(queue := queue)))
    {
      fetchQueues := if queue == [] then fetchQueues - {c} else fetchQueues[c := queue];
      ghost var l := old(LaneOf(c));
      Moved(old(AsWorld()), c, l.(fetch := l.fetch.(queue := queue)));
      hide LaneOf;
    }

    method ReplyFetch(c: Connection, a: FetchAnswer)
      modifies this`fetchAnswers
      ensures var l := old(AsWorld()).lanes[c];
        AsWorld() == Put(old(AsWorld()), c, l.(fetch := l.fetch.(answers := l.fetch.answers + [a])))
    {
      fetchAnswers := fetchAnswers[c := At(fetchAnswers, c, []) + [a]];
      ghost var l := old(LaneOf(c));
      Moved(old(AsWorld()), c, l.(fetch := l.fetch.(answers := l.fetch.answers + [a])));
      hide LaneOf;
    }

    // ---- Reservations ----

    method ValidFetch(owner: Owner, c: Connection, ticket: Id) returns (valid: bool)
      ensures valid == LeaseWorld.ValidFetch(AsWorld(), owner, c, ticket)
    {
      Here(c);
      hide AsWorld, LaneOf;
      valid := c in fetches && fetches[c].owner == owner && fetches[c].ticket == ticket;
    }

    method StartFetch(c: Connection, p: FetchRequest)
      modifies this`fetches, this`fetchAnswers, this`nextId
      ensures AsWorld() == LeaseWorld.StartFetch(old(AsWorld()), c, p)
    {
      Here(c);
      hide AsWorld, LaneOf;
      var ticket := Unique();
      ghost var w := AsWorld();
      SetFetch(c, Some(FetchLease(p.owner, ticket)));
      ghost var l := AsWorld().lanes[c];
      ReplyFetch(c, FetchGranted(p.number, ticket));
      PutTwice(w, c, l, AsWorld().lanes[c]);
    }

    method NumberFetch(c: Connection) returns (number: nat)
      modifies this`fetchCalls
      ensures number == old(AsWorld()).lanes[c].fetch.arrived
      ensures var l := old(AsWorld()).lanes[c];
        AsWorld() == Put(old(AsWorld()), c, l.(fetch := l.fetch.(arrived := number + 1)))
    {
      number := At(fetchCalls, c, 0);
      fetchCalls := fetchCalls[c := number + 1];
      ghost var l := old(LaneOf(c));
      Moved(old(AsWorld()), c, l.(fetch := l.fetch.(arrived := number + 1)));
      hide LaneOf;
    }

    method AcquireFetch(owner: Owner, c: Connection)
      modifies this
      ensures AsWorld() == LeaseWorld.AcquireFetch(old(AsWorld()), owner, c)
    {
      hide AsWorld, LaneOf, LeaseWorld.StartFetch;
      var number := NumberFetch(c);
      var p := FetchRequest(owner, number);
      Here(c);
      if c in fetches {
        ghost var w := AsWorld();
        SetFetchQueue(c, At(fetchQueues, c, []) + [p]);
        PutTwice(old(AsWorld()), c, w.lanes[c], AsWorld().lanes[c]);
      } else {
        StartFetch(c, p);
      }
    }

    method ReleaseFetch(owner: Owner, c: Connection, ticket: Id)
      modifies this
      ensures AsWorld() == LeaseWorld.ReleaseFetch(old(AsWorld()), owner, c, ticket)
    {
      hide AsWorld, LaneOf, LeaseWorld.StartFetch;
      Here(c);
      var valid := ValidFetch(owner, c, ticket);
      if !valid { return; }
      SetFetch(c, None);
      ghost var l := AsWorld().lanes[c];
      var queue := At(fetchQueues, c, []);
      SetFetchQueue(c, if queue == [] then [] else queue[1..]);
      PutTwice(old(AsWorld()), c, l, AsWorld().lanes[c]);
      if queue != [] { StartFetch(c, queue[0]); }
    }

    // ---- Credential leases ----

    method Grant(c: Connection, p: Request, ticket: Id, slot: Option<Slot>, r: Record)
      modifies this`leases, this`answers
      ensures AsWorld() == LeaseWorld.Grant(old(AsWorld()), c, p, ticket, slot, r)
    {
      hide Cleanup, ViewOf, Elements, LegacyKey;
      var cleanup := Cleanup(r.retired, r, c, slot, abandonedSlots);
      var deletable := if p.action == Delete then Elements(r.retired) + {LegacyKey(c)} else Elements(cleanup);
      Here(c);
      hide AsWorld, LaneOf;
      SetLease(c, Lease(p.owner, ticket, p.action, p.fetchTicket, slot, slot, deletable));
      ghost var w := AsWorld();
      Reply(c, Granted(p.number, ticket, ViewOf(r, c), cleanup, slot));
      PutTwice(old(AsWorld()), c, w.lanes[c], AsWorld().lanes[c]);
    }

    /** `start` once the record is known to match. */
    method AttemptOn(c: Connection, p: Request, ticket: Id, r: Record)
      modifies this, backend
      ensures AsWorld() == LeaseWorld.AttemptOn(old(AsWorld()), c, p, ticket, r)
    {
      Here(c);
      hide AsWorld, LaneOf, LeaseWorld.Grant, LeaseWorld.Persist, ReconnectRecord, DeleteRecord, RefreshRecord,
        Matches, LeaseWorld.Reply, LeaseWorld.Unfence;
      match p.action
      case Reconnect =>
        var r' := EditReconnect(r, c);
        var ok := Persist(c, r');
        if ok { Unfence(c); Grant(c, p, ticket, r'.pendingSlot, r'); } else { Reply(c, Failed(p.number)); }
      case Complete =>
        if Matches(r, p) { Grant(c, p, ticket, r.pendingSlot, r); } else { Reply(c, Failed(p.number)); }
      case Cancel =>
        if Matches(r, p) { Grant(c, p, ticket, r.pendingSlot, r); } else { Reply(c, Failed(p.number)); }
      case Delete =>
        var r' := EditDelete(r, c);
        var ok := Persist(c, r');
        if ok { Grant(c, p, ticket, None, r'); } else { Reply(c, Failed(p.number)); }
      case Refresh =>
        if r.mode != Some(Active) { Reply(c, Failed(p.number)); return; }
        var id := Unique();
        var r' := Retire(r, Some(Minted(c, id)));
        RefreshIs(r, c, id);
        var ok := Persist(c, r');
        if ok { Grant(c, p, ticket, Some(Minted(c, id)), r'); } else { Reply(c, Failed(p.number)); }
      case Read => Grant(c, p, ticket, None, r);
      case UnknownAction => Reply(c, Failed(p.number));
    }

    method Attempt(c: Connection, p: Request)
      modifies this, backend
      ensures AsWorld() == LeaseWorld.Attempt(old(AsWorld()), c, p)
    {
      Here(c);
      hide AsWorld, LaneOf, LeaseWorld.AttemptOn, LeaseWorld.Reply, Matches, LeaseWorld.State,
        LeaseWorld.ValidFetch, Put, At;
      var superseded := false;
      if p.fetchTicket.Some? {
        var valid := ValidFetch(p.owner, c, p.fetchTicket.value);
        superseded := !valid;
      }
      if superseded || (c in fenced && p.action != Reconnect) { Reply(c, Failed(p.number)); return; }
      var r: Option<Record>;
      if c in fenced && c in failedCommitPriorState { r := Some(failedCommitPriorState[c]); } else { r := State(c); }
      if r.None? { Reply(c, Failed(p.number)); return; }
      if p.expected.Some? && !Matches(r.value, p) { Reply(c, Declined(p.number)); return; }
      var ticket := Unique();
      AttemptOn(c, p, ticket, r.value);
    }

    method Start(c: Connection, p: Request)
      modifies this, backend
      ensures AsWorld() == LeaseWorld.Start(old(AsWorld()), c, p)
      decreases |At(queues, c, [])|, 1
    {
      Here(c);
      AttemptKeepsQueue(AsWorld(), c, p);
      hide AsWorld, LaneOf, LeaseWorld.Attempt;
      Attempt(c, p);
      Here(c);
      if c !in leases { Next(c); }
    }

    method Next(c: Connection)
      modifies this, backend
      ensures AsWorld() == LeaseWorld.Next(old(AsWorld()), c)
      decreases |At(queues, c, [])|, 0
    {
      Here(c);
      hide AsWorld, LaneOf;
      var queue := At(queues, c, []);
      if queue != [] {
        SetQueue(c, queue[1..]);
        Here(c);
        Start(c, queue[0]);
      } else {
        ghost var w := AsWorld();
        SetQueue(c, []);
        assert w.lanes[c := w.lanes[c].(queue := [])] == w.lanes;
      }
    }

    method Acquire(owner: Owner, c: Connection, action: Action, expected: Option<Version>, fetchTicket: Option<Id>)
      modifies this, backend
      ensures AsWorld() == LeaseWorld.Acquire(old(AsWorld()), owner, c, action, expected, fetchTicket)
    {
      hide AsWorld, LaneOf, LeaseWorld.Start, At;
      var number := NumberCall(c);
      var p := Request(owner, action, expected, fetchTicket, number);
      Here(c);
      if c in leases {
        ghost var w := AsWorld();
        SetQueue(c, At(queues, c, []) + [p]);
        PutTwice(old(AsWorld()), c, w.lanes[c], AsWorld().lanes[c]);
      } else {
        Start(c, p);
      }
    }

    method Holds(owner: Owner, c: Connection, ticket: Id) returns (holds: bool)
      ensures holds == LeaseWorld.Holds(AsWorld(), owner, c, ticket)
      ensures holds ==> c in leases && AsWorld().lanes[c].lease == Some(leases[c])
    {
      Here(c);
      hide AsWorld, LaneOf;
      holds := c in leases && leases[c].owner == owner && leases[c].ticket == ticket;
    }

    method PrepareMigration(owner: Owner, c: Connection, ticket: Id) returns (out: Result<Record>)
      modifies this, backend
      ensures (AsWorld(), out) == LeaseWorld.PrepareMigration(old(AsWorld()), owner, c, ticket)
    {
      hide AsWorld, LaneOf, LeaseWorld.State, MigrationRecord, MigrationSlot, MigrationIds, LeaseWorld.Persist,
        ValidBackup;
      out := Failure;
      var holds := Holds(owner, c, ticket);
      var state := State(c);
      if !holds || state.None? { return; }
      var lease, r := leases[c], state.value;
      if lease.action != Read || !(r.mode == Some(Legacy) || r.mode == Some(Migration) || ValidBackup(r, c)) { return; }
      var s, r' := EditMigration(r, c);
      SetLease(c, lease.(slot := Some(s)));
      var ok := Persist(c, r');
      if ok {
        SetLease(c, lease.(slot := Some(s), writable := Some(s)));
        out := Success(r');
      }
    }

    method SettleWith(c: Connection, r: Record) returns (out: Result<Record>)
      modifies this`fenced, this`failedCommitPriorState, backend
      ensures (AsWorld(), out) == LeaseWorld.SettleWith(old(AsWorld()), c, r)
    {
      hide AsWorld, LaneOf, LeaseWorld.Persist;
      var ok := Persist(c, r);
      out := if ok then Success(r) else Failure;
    }

    /** `finish` between finding its lease and dropping it. */
    method Settle(c: Connection, lease: Lease, operation: Operation, identity: Option<string>)
      returns (out: Result<Record>)
      modifies this`fenced, this`failedCommitPriorState, this`nextId, backend
      ensures (AsWorld(), out) == LeaseWorld.Settle(old(AsWorld()), c, lease, operation, identity)
    {
      hide AsWorld, LaneOf, LeaseWorld.State, LeaseWorld.ValidFetch, DropRecord, ActivateRecord, CancelRecord,
        LeaseWorld.Persist;
      out := Failure;
      if lease.fetchTicket.Some? {
        var valid := ValidFetch(lease.owner, c, lease.fetchTicket.value);
        if !valid { return; }
      }
      var state := State(c);
      if state.None? { return; }
      var r := state.value;
      if operation == Activate {
        if lease.slot.None? || identity.None? || |identity.value| != 64 { return; }
        if (lease.action == Refresh || r.mode == Some(Active)) && identity != r.identity {
          var dropped := EditDrop(r);
          var _ := Persist(c, dropped);
          return;
        }
        var active := EditActivate(r, c, lease.action, lease.slot.value, identity.value);
        out := SettleWith(c, active);
      } else if operation == CancelSignIn {
        if lease.action != Cancel { return; }
        var open := EditCancel(r);
        out := SettleWith(c, open);
      } else if operation == Confirm && identity.None? {
        return;
      } else if operation == Missing || (operation == Confirm && identity != r.identity) {
        var dropped := EditDrop(r);
        out := SettleWith(c, dropped);
      } else if operation == Release || operation == Confirm {
        out := Success(r);
      }
    }

    method Finish(owner: Owner, c: Connection, ticket: Id, operation: Operation, identity: Option<string>)
      returns (out: Result<Record>)
      modifies this, backend
      ensures (AsWorld(), out) == LeaseWorld.Finish(old(AsWorld()), owner, c, ticket, operation, identity)
    {
      hide AsWorld, LaneOf, LeaseWorld.Settle, LeaseWorld.Next;
      var holds := Holds(owner, c, ticket);
      if !holds { return Failure; }
      var lease := leases[c];
      SettleIgnoresLease(AsWorld(), c, lease, operation, identity);
      hide LeaseWorld.WithoutLease;
      out := Settle(c, lease, operation, identity);
      DropLease(c);
      Next(c);
    }

    // ---- Cleanup ----

    method QueueLegacyCleanup(owner: Owner, c: Connection, ticket: Id) returns (out: Result<()>)
      modifies this`nextId, backend
      ensures (AsWorld(), out) == LeaseWorld.QueueLegacyCleanup(old(AsWorld()), owner, c, ticket)
    {
      Here(c);
      hide AsWorld, LaneOf, LeaseWorld.State, LeaseWorld.SoftPersist, LeaseWorld.Holds, Barrier, Retire;
      var holds := Holds(owner, c, ticket);
      if !holds || (c != AnthropicPlan && c != OpenaiPlan) { return Failure; }
      var state := State(c);
      if state.None? { return Failure; }
      var r := state.value;
      if r.generation.None? { r := Bar(r, Legacy); }
      var ok := SoftPersist(c, Retire(r, Some(PastedSecret(c))));
      out := if ok then Success(()) else Failure;
    }

    method AcknowledgeCleanup(owner: Owner, c: Connection, ticket: Id, cleaned: set<Slot>) returns (out: Result<bool>)
      modifies backend
      ensures (AsWorld(), out) == LeaseWorld.AcknowledgeCleanup(old(AsWorld()), owner, c, ticket, cleaned)
    {
      Here(c);
      hide AsWorld, LaneOf, LeaseWorld.State, LeaseWorld.SoftPersist, Unacknowledged;
      var holds := Holds(owner, c, ticket);
      var state := State(c);
      if !holds || state.None? { return Failure; }
      var r := state.value;
      var slots := Unacknowledged(r.retired, cleaned, r, c, leases[c].slot, abandonedSlots);
      var base := if c in backend.visible then backend.visible[c] else Blank;
      var ok := SoftPersist(c, base.(retired := slots));
      out := Success(ok);
    }

    // ---- Detachment ----

    method DropFetchQueues(owner: Owner)
      modifies this`fetchQueues, this`fetchDropped
      ensures AsWorld() == DropAllFetchQueues(old(AsWorld()), owner)
    {
      hide Gone;
      var before := fetchQueues;
      fetchQueues := map c | c in before :: Without(before[c], FetchOwner, owner);
      fetchDropped := map c: Connection | true ::
        At(old(fetchDropped), c, {}) + Gone(At(before, c, []), FetchOwner, FetchNumber, owner);
      SameWorld(DropAllFetchQueues(old(AsWorld()), owner));
      hide LaneOf;
    }

    method DropQueuesOf(owner: Owner)
      modifies this`queues, this`dropped
      ensures AsWorld() == DropAllQueues(old(AsWorld()), owner)
    {
      hide Gone;
      var before := queues;
      queues := map c | c in before :: Without(before[c], RequestOwner, owner);
      dropped := map c: Connection | true :: At(old(dropped), c, {}) + Gone(At(before, c, []), RequestOwner, RequestNumber, owner);
      SameWorld(DropAllQueues(old(AsWorld()), owner));
      hide LaneOf;
    }

    method Abandon(slot: Option<Slot>)
      modifies this`abandonedSlots
      ensures AsWorld() == old(AsWorld()).(abandoned := old(AsWorld()).abandoned + if slot.Some? then {slot.value} else {})
    {
      if slot.Some? { abandonedSlots := abandonedSlots + {slot.value}; }
      SameWorld(old(AsWorld()).(abandoned := abandonedSlots));
      hide LaneOf;
    }

    method DetachLease(owner: Owner, c: Connection)
      modifies this, backend
      ensures AsWorld() == LeaseWorld.DetachLease(old(AsWorld()), owner, c)
    {
      Here(c);
      hide AsWorld, LaneOf, LeaseWorld.State, LeaseWorld.Persist, DetachRecord, LeaseWorld.Next;
      if c !in leases || leases[c].owner != owner { return; }
      var lease := leases[c];
      Abandon(lease.slot);
      DropLease(c);
      if lease.action != Read {
        var state := State(c);
        if state.Some? {
          var parked := EditDetach(state.value);
          var _ := Persist(c, parked);
        } else {
          Fence(c);
        }
      }
      Next(c);
    }

    /** `order` is the iteration order of the process's hash maps. */
    method Detach(owner: Owner, order: seq<Connection>)
      modifies this, backend
      ensures AsWorld() == LeaseWorld.Detach(old(AsWorld()), owner, order)
    {
      hide AsWorld, LaneOf, DropAllFetchQueues, DropAllQueues, LeaseWorld.DetachLease, LeaseWorld.ReleaseFetch;
      DropFetchQueues(owner);
      ghost var w := AsWorld();
      for i := 0 to |order|
        invariant DetachFetches(AsWorld(), owner, order[i..]) == DetachFetches(w, owner, order)
      {
        assert order[i..][1..] == order[i + 1..];
        Here(order[i]);
        if order[i] in fetches && fetches[order[i]].owner == owner {
          ReleaseFetch(owner, order[i], fetches[order[i]].ticket);
        }
      }
      DropQueuesOf(owner);
      w := AsWorld();
      for i := 0 to |order|
        invariant DetachLeases(AsWorld(), owner, order[i..]) == DetachLeases(w, owner, order)
      {
        assert order[i..][1..] == order[i + 1..];
        DetachLease(owner, order[i]);
      }
    }

    // ---- Snapshots ----

    method Valid(c: Connection, expected: Option<Version>) returns (out: Result<bool>)
      ensures out == LeaseWorld.Valid(AsWorld(), c, expected)
    {
      Here(c);
      hide AsWorld, LaneOf, LeaseWorld.State, Same;
      if c in fenced { return Success(false); }
      var state := State(c);
      if state.None? { return Failure; }
      out := Success(Same(state.value, expected, false));
    }

    method ValidAll(versions: seq<(Connection, Option<Version>)>) returns (out: Result<bool>)
      ensures out == LeaseWorld.ValidAll(AsWorld(), versions)
    {
      hide AsWorld, LaneOf, LeaseWorld.Valid;
      for i := 0 to |versions|
        invariant LeaseWorld.ValidAll(AsWorld(), versions[i..]) == LeaseWorld.ValidAll(AsWorld(), versions)
      {
        assert versions[i..][1..] == versions[i + 1..];
        var one := Valid(versions[i].0, versions[i].1);
        if one != Success(true) { return one; }
      }
      out := Success(true);
    }

    method ClearSnapshot(c: Connection, expected: Option<Version>) returns (out: Result<()>)
      modifies this`nextId, backend
      ensures (AsWorld(), out) == LeaseWorld.ClearSnapshot(old(AsWorld()), c, expected)
    {
      Here(c);
      hide AsWorld, LaneOf, LeaseWorld.State, LeaseWorld.SoftPersist, Same;
      var state := State(c);
      if state.None? { return Failure; }
      var r := state.value;
      if (expected.Some? && !Same(r, expected, false)) || r.mode == Some(Legacy) { return Success(()); }
      var epoch := Unique();
      var ok := SoftPersist(c, r.(epoch := Some(epoch), cache := EmptyCache));
      out := if ok then Success(()) else Failure;
    }

    method ReadSnapshot(c: Connection, expected: Option<Version>) returns (out: Result<Option<string>>)
      modifies this`nextId, backend
      ensures (AsWorld(), out) == LeaseWorld.ReadSnapshot(old(AsWorld()), c, expected)
    {
      hide AsWorld, LaneOf, LeaseWorld.State, Same, LeaseWorld.ClearSnapshot;
      var valid := Valid(c, expected);
      if valid.Failure? { return Failure; }
      if !valid.value { return Success(None); }
      var state := State(c);
      var cache := state.value.cache;
      if cache.payload.Some? && cache.version != Some("1") {
        var cleared := ClearSnapshot(c, expected);
        return if cleared.Success? then Success(None) else Failure;
      }
      out := Success(if cache.version != Some("1") then None else cache.payload);
    }

    method StoredTime(cache: Cache) returns (oldAt: int)
      ensures oldAt == EffectiveTime(cache)
    {
      oldAt := LongMin;
      if cache.at.Some? && cache.at.value.Number? && LongMin <= cache.at.value.value <= LongMax {
        oldAt := cache.at.value.value;
        if !cache.micros {
          oldAt := oldAt * 1000;
          if oldAt < LongMin || oldAt > LongMax { oldAt := LongMin; }
        }
      }
    }

    method WriteSnapshot(c: Connection, expected: Option<Version>, payload: string, at: int) returns (out: Result<bool>)
      modifies backend
      ensures (AsWorld(), out) == LeaseWorld.WriteSnapshot(old(AsWorld()), c, expected, payload, at)
    {
      hide AsWorld, LaneOf, LeaseWorld.State, Same, LeaseWorld.SoftPersist, EffectiveTime;
      var valid := Valid(c, expected);
      if valid.Failure? { return Failure; }
      if !valid.value { return Success(false); }
      var state := State(c);
      var oldAt := StoredTime(state.value.cache);
      if at < oldAt { return Success(false); }
      var ok := SoftPersist(c, state.value.(cache := Cache(Some(payload), Some(Stamp.Number(at)), Some("1"), true)));
      out := Success(ok);
    }

    method UpgradeSnapshotTimestamp(c: Connection, expected: Option<Version>, payload: string, at: int)
      returns (out: Result<bool>)
      modifies backend
      ensures (AsWorld(), out) == LeaseWorld.UpgradeSnapshotTimestamp(old(AsWorld()), c, expected, payload, at)
    {
      hide AsWorld, LaneOf, LeaseWorld.State, Same, LeaseWorld.SoftPersist;
      var valid := Valid(c, expected);
      if valid.Failure? { return Failure; }
      if !valid.value { return Success(false); }
      var state := State(c);
      var r := state.value;
      if r.cache.payload != Some(payload) { return Success(false); }
      if r.cache.micros { return Success(true); }
      var ok := SoftPersist(c, r.(cache := r.cache.(at := Some(Stamp.Number(at)), micros := true)));
      out := Success(ok);
    }
  }
}
