/** The lease engine as a state machine on values: what each public call does to the whole
    process state. The class in ConnectionCacheEngine.dfy is proved equal to these functions. */
module LeaseWorld {
  import opened Wrappers
  import opened CredentialRecords

  type Owner = string

  type Store = map<Connection, Record>

  // ---- The preferences file ----

  /** What happens to one commit. A `Lost` commit reports failure, yet its values may have
      reached the in-memory map, the file, both or neither. */
  datatype Fault = Saved | Lost(memory: bool, file: bool)

  /** `visible` is what `read` returns; `durable` is what a new process would find.
      `faults` scripts every commit to come. */
  datatype Disk = Disk(visible: Store, durable: Store, faults: nat -> Fault, commits: nat)

  function NextFault(d: Disk): Fault { (d.faults)(d.commits) }

  /** The Boolean is what the backend reports. */
  function Commit(d: Disk, values: Store): (Disk, bool) {
    var f := NextFault(d);
    (Disk(if f.Saved? || f.memory then values else d.visible,
          if f.Saved? || f.file then values else d.durable, d.faults, d.commits + 1), f.Saved?)
  }

  // ---- One connection's share of the process ----

  /** `writable` and `deletable` record what the holder has been told so far; the engine
      never reads them back. */
  datatype Lease = Lease(owner: Owner, ticket: Id, action: Action, fetchTicket: Option<Id>, slot: Option<Slot>,
                         writable: Option<Slot>, deletable: set<Slot>)

  /** `number` counts the calls on a connection and stands for the call's callbacks. */
  datatype Request = Request(owner: Owner, action: Action, expected: Option<Version>, fetchTicket: Option<Id>, number: nat)

  datatype Answer =
    | Granted(request: nat, ticket: Id, view: Record, cleanup: seq<Slot>, writeSlot: Option<Slot>)
    | Declined(request: nat)   // accepted = false
    | Failed(request: nat)

  datatype FetchLease = FetchLease(owner: Owner, ticket: Id)
  datatype FetchRequest = FetchRequest(owner: Owner, number: nat)
  datatype FetchAnswer = FetchGranted(request: nat, ticket: Id)

  datatype FetchLane = FetchLane(lease: Option<FetchLease>, queue: seq<FetchRequest>,
                                 answers: seq<FetchAnswer>, arrived: nat, dropped: set<nat>)

  datatype Lane = Lane(lease: Option<Lease>, queue: seq<Request>, fenced: bool, prior: Option<Record>,
                       answers: seq<Answer>, arrived: nat, dropped: set<nat>, fetch: FetchLane)

  const IdleFetch := FetchLane(None, [], [], 0, {})
  const IdleLane := Lane(None, [], false, None, [], 0, {}, IdleFetch)
  /** One idle lane for each connection. */
  function IdleLanes(): (m: map<Connection, Lane>)
    ensures Total(m)
  {
    var m := map[OpenaiPlan := IdleLane, OpenaiPlatform := IdleLane, AnthropicPlan := IdleLane,
                 AnthropicPlatform := IdleLane, CursorPlan := IdleLane, CursorPlatform := IdleLane];
    EachConnectionListed(m);
    m
  }

  lemma EachConnectionListed(m: map<Connection, Lane>)
    requires OpenaiPlan in m && OpenaiPlatform in m && AnthropicPlan in m && AnthropicPlatform in m
    requires CursorPlan in m && CursorPlatform in m
    ensures Total(m)
  {
    forall c: Connection ensures c in m {
      match c
      case OpenaiPlan => case OpenaiPlatform => case AnthropicPlan =>
      case AnthropicPlatform => case CursorPlan => case CursorPlatform =>
    }
  }

  ghost predicate Total(m: map<Connection, Lane>) { forall c: Connection :: c in m }

  type Lanes = m: map<Connection, Lane> | Total(m) witness IdleLanes()

  datatype World = World(disk: Disk, ids: nat, abandoned: set<Slot>, lanes: Lanes)

  function Put(w: World, c: Connection, l: Lane): World { w.(lanes := w.lanes[c := l]) }

  lemma PutTwice(w: World, c: Connection, a: Lane, b: Lane)
    ensures Put(Put(w, c, a), c, b) == Put(w, c, b) && Put(w, c, a).lanes[c] == a
  {
    assert w.lanes[c := a][c := b] == w.lanes[c := b];
  }

  function Known(s: Store, c: Connection): Record { if c in s then s[c] else LegacyState }

  /** `state`: absent keys read as legacy, an unreadable record throws. */
  function State(w: World, c: Connection): Option<Record> {
    if c !in w.disk.visible then Some(LegacyState)
    else if Readable(w.disk.visible[c]) then Some(w.disk.visible[c]) else None
  }

  /** `persist`: a refused commit fences the connection and remembers the record before the
      first refusal. */
  function Persist(w: World, c: Connection, r: Record): (World, bool) {
    var (d, ok) := Commit(w.disk, w.disk.visible[c := r]);
    if ok then (w.(disk := d), true)
    else
      var l := w.lanes[c];
      (Put(w.(disk := d), c,
           l.(fenced := true,
              prior := if l.prior.Some? then l.prior else Some(Known(w.disk.visible, c)))), false)
  }

  lemma PersistIgnoresLease(w: World, c: Connection, r: Record, lease: Option<Lease>)
    ensures var (a, x) := Persist(w, c, r);
            var (b, y) := Persist(Put(w, c, w.lanes[c].(lease := lease)), c, r);
      x == y && b == Put(a, c, a.lanes[c].(lease := lease))
  {
    var a := Persist(w, c, r).0;
    var b := Persist(Put(w, c, w.lanes[c].(lease := lease)), c, r).0;
    assert b.lanes == a.lanes[c := a.lanes[c].(lease := lease)];
  }

  /** A best-effort commit: its refusal is reported but fences nothing. */
  function SoftPersist(w: World, c: Connection, r: Record): (World, bool) {
    var (d, ok) := Commit(w.disk, w.disk.visible[c := r]);
    (w.(disk := d), ok)
  }

  // ---- Network reservations ----

  function ValidFetch(w: World, owner: Owner, c: Connection, ticket: Id): bool {
    w.lanes[c].fetch.lease == Some(FetchLease(owner, ticket))
  }

  function StartFetch(w: World, c: Connection, p: FetchRequest): World {
    var f := w.lanes[c].fetch;
    Put(w.(ids := w.ids + 1), c,
        w.lanes[c].(fetch := f.(lease := Some(FetchLease(p.owner, w.ids)),
                                answers := f.answers + [FetchGranted(p.number, w.ids)])))
  }

  function AcquireFetch(w: World, owner: Owner, c: Connection): World {
    var f := w.lanes[c].fetch;
    var p := FetchRequest(owner, f.arrived);
    var w1 := Put(w, c, w.lanes[c].(fetch := f.(arrived := f.arrived + 1)));
    if f.lease.Some? then Put(w1, c, w.lanes[c].(fetch := f.(arrived := f.arrived + 1, queue := f.queue + [p])))
    else StartFetch(w1, c, p)
  }

  function ReleaseFetch(w: World, owner: Owner, c: Connection, ticket: Id): World {
    if !ValidFetch(w, owner, c, ticket) then w
    else
      var f := w.lanes[c].fetch;
      if f.queue == [] then Put(w, c, w.lanes[c].(fetch := f.(lease := None)))
      else StartFetch(Put(w, c, w.lanes[c].(fetch := f.(lease := None, queue := f.queue[1..]))), c, f.queue[0])
  }

  // ---- Credential leases ----

  /** The slots a grant offers for deletion. */
  function Cleanup(slots: seq<Slot>, r: Record, c: Connection, writeSlot: Option<Slot>, abandoned: set<Slot>)
    : (kept: seq<Slot>)
  {
    if slots == [] then []
    else
      var rest := Cleanup(slots[1..], r, c, writeSlot, abandoned);
      if Guarded(r, c, slots[0]) || writeSlot == Some(slots[0]) || slots[0] in abandoned then rest
      else [slots[0]] + rest
  }

  function Elements(slots: seq<Slot>): set<Slot> { set i | 0 <= i < |slots| :: slots[i] }

  /** A grant view hides a backup key that no longer matches its record. */
  function ViewOf(r: Record, c: Connection): Record {
    if ValidBackup(r, c) then r else r.(backupKey := None)
  }

  function Reply(w: World, c: Connection, a: Answer): World {
    Put(w, c, w.lanes[c].(answers := w.lanes[c].answers + [a]))
  }

  /** A deletion's holder erases every retired key; any other holder erases the offered ones. */
  function Grant(w: World, c: Connection, p: Request, ticket: Id, slot: Option<Slot>, r: Record): World {
    var cleanup := Cleanup(r.retired, r, c, slot, w.abandoned);
    var deletable := if p.action == Delete then Elements(r.retired) + {LegacyKey(c)} else Elements(cleanup);
    var l := w.lanes[c];
    Put(w, c, l.(lease := Some(Lease(p.owner, ticket, p.action, p.fetchTicket, slot, slot, deletable)),
                 answers := l.answers + [Granted(p.number, ticket, ViewOf(r, c), cleanup, slot)]))
  }

  predicate Barred(w: World, c: Connection, p: Request) {
    || (p.fetchTicket.Some? && !ValidFetch(w, p.owner, c, p.fetchTicket.value))
    || (w.lanes[c].fenced && p.action != Reconnect)
  }

  /** A fenced connection restarts from the record before its first refused commit. */
  function Ground(w: World, c: Connection): Option<Record> {
    if w.lanes[c].fenced && w.lanes[c].prior.Some? then w.lanes[c].prior else State(w, c)
  }

  predicate Matches(r: Record, p: Request) {
    if p.action == Complete || p.action == Cancel then SamePending(r, p.expected) else Same(r, p.expected, true)
  }

  function Unfence(w: World, c: Connection): World {
    Put(w, c, w.lanes[c].(fenced := false, prior := None))
  }

  /** `start` up to its answer: grants the lease, or answers without granting. */
  function Attempt(w: World, c: Connection, p: Request): World {
    if Barred(w, c, p) || Ground(w, c).None? then Reply(w, c, Failed(p.number))
    else
      var r := Ground(w, c).value;
      if p.expected.Some? && !Matches(r, p) then Reply(w, c, Declined(p.number))
      else AttemptOn(w.(ids := w.ids + 1), c, p, w.ids, r)
  }

  function AttemptOn(w: World, c: Connection, p: Request, ticket: Id, r: Record): World {
    match p.action
    case Reconnect =>
      var r' := ReconnectRecord(r, c, w.ids);
      var (w1, ok) := Persist(w.(ids := w.ids + 4), c, r');
      if ok then Grant(Unfence(w1, c), c, p, ticket, r'.pendingSlot, r') else Reply(w1, c, Failed(p.number))
    case Complete =>
      if Matches(r, p) then Grant(w, c, p, ticket, r.pendingSlot, r) else Reply(w, c, Failed(p.number))
    case Cancel =>
      if Matches(r, p) then Grant(w, c, p, ticket, r.pendingSlot, r) else Reply(w, c, Failed(p.number))
    case Delete =>
      var r' := DeleteRecord(r, c, w.ids);
      var (w1, ok) := Persist(w.(ids := w.ids + 3), c, r');
      if ok then Grant(w1, c, p, ticket, None, r') else Reply(w1, c, Failed(p.number))
    case Refresh =>
      if r.mode != Some(Active) then Reply(w, c, Failed(p.number))
      else
        var r' := RefreshRecord(r, c, w.ids);
        var (w1, ok) := Persist(w.(ids := w.ids + 1), c, r');
        if ok then Grant(w1, c, p, ticket, Some(Minted(c, w.ids)), r') else Reply(w1, c, Failed(p.number))
    case Read => Grant(w, c, p, ticket, None, r)
    case UnknownAction => Reply(w, c, Failed(p.number))
  }

  /** `start` and `next`: keep answering the queue until one request is granted. */
  function Start(w: World, c: Connection, p: Request): World
    decreases |w.lanes[c].queue|, 1
  {
    AttemptKeepsQueue(w, c, p);
    var w1 := Attempt(w, c, p);
    if w1.lanes[c].lease.Some? then w1 else Next(w1, c)
  }

  function Next(w: World, c: Connection): World
    decreases |w.lanes[c].queue|, 0
  {
    var q := w.lanes[c].queue;
    if q == [] then w else Start(Put(w, c, w.lanes[c].(queue := q[1..])), c, q[0])
  }

  lemma AttemptKeepsQueue(w: World, c: Connection, p: Request)
    ensures Attempt(w, c, p).lanes[c].queue == w.lanes[c].queue
  {
    hide AttemptOn;
    if !(Barred(w, c, p) || Ground(w, c).None?) {
      AttemptOnKeepsQueue(w.(ids := w.ids + 1), c, p, w.ids, Ground(w, c).value);
    }
  }

  lemma AttemptOnKeepsQueue(w: World, c: Connection, p: Request, ticket: Id, r: Record)
    ensures AttemptOn(w, c, p, ticket, r).lanes[c].queue == w.lanes[c].queue
  {
    hide Persist, ReconnectRecord, DeleteRecord, RefreshRecord, Cleanup, ViewOf, Elements;
    match p.action {
      case Reconnect => PersistKeepsQueue(w.(ids := w.ids + 4), c, ReconnectRecord(r, c, w.ids));
      case Delete => PersistKeepsQueue(w.(ids := w.ids + 3), c, DeleteRecord(r, c, w.ids));
      case Refresh => PersistKeepsQueue(w.(ids := w.ids + 1), c, RefreshRecord(r, c, w.ids));
      case _ =>
    }
  }

  lemma PersistKeepsQueue(w: World, c: Connection, r: Record)
    ensures Persist(w, c, r).0.lanes[c].queue == w.lanes[c].queue
  {}

  function Acquire(w: World, owner: Owner, c: Connection, action: Action, expected: Option<Version>,
      fetchTicket: Option<Id>): World
  {
    var l := w.lanes[c];
    var p := Request(owner, action, expected, fetchTicket, l.arrived);
    if l.lease.Some? then Put(w, c, l.(arrived := l.arrived + 1, queue := l.queue + [p]))
    else Start(Put(w, c, l.(arrived := l.arrived + 1)), c, p)
  }

  predicate Holds(w: World, owner: Owner, c: Connection, ticket: Id) {
    var lease := w.lanes[c].lease;
    lease.Some? && lease.value.owner == owner && lease.value.ticket == ticket
  }

  function WithoutLease(w: World, c: Connection): World { Put(w, c, w.lanes[c].(lease := None)) }

  function PrepareMigration(w: World, owner: Owner, c: Connection, ticket: Id): (World, Result<Record>) {
    if !Holds(w, owner, c, ticket) || State(w, c).None? then (w, Failure)
    else
      var lease := w.lanes[c].lease.value;
      var r := State(w, c).value;
      if lease.action != Read || !(r.mode == Some(Legacy) || r.mode == Some(Migration) || ValidBackup(r, c)) then (w, Failure)
      else
        var s := MigrationSlot(r, c, w.ids);
        var r' := MigrationRecord(r, c, w.ids);
        var held := Put(w.(ids := w.ids + MigrationIds(r)), c, w.lanes[c].(lease := Some(lease.(slot := Some(s)))));
        var (w1, ok) := Persist(held, c, r');
        if ok then (Put(w1, c, w1.lanes[c].(lease := Some(lease.(slot := Some(s), writable := Some(s))))), Success(r'))
        else (w1, Failure)
  }

  datatype Operation = Activate | CancelSignIn | Missing | Confirm | Release | UnknownOperation

  /** `finish` without the lease bookkeeping; `lease` is the one being finished. */
  function Settle(w: World, c: Connection, lease: Lease, operation: Operation, identity: Option<string>)
    : (World, Result<Record>)
  {
    if (lease.fetchTicket.Some? && !ValidFetch(w, lease.owner, c, lease.fetchTicket.value)) || State(w, c).None? then (w, Failure)
    else
      var r := State(w, c).value;
      if operation == Activate then
        if lease.slot.None? || identity.None? || |identity.value| != 64 then (w, Failure)
        else if (lease.action == Refresh || r.mode == Some(Active)) && identity != r.identity then
          (Persist(w.(ids := w.ids + 3), c, DropRecord(r, w.ids)).0, Failure)
        else
          SettleWith(w.(ids := w.ids + 1), c,
                     ActivateRecord(r, c, lease.action, lease.slot.value, identity.value, w.ids))
      else if operation == CancelSignIn then
        if lease.action != Cancel then (w, Failure) else SettleWith(w, c, CancelRecord(r))
      else if operation == Confirm && identity.None? then (w, Failure)
      else if operation == Missing || (operation == Confirm && identity != r.identity) then
        SettleWith(w.(ids := w.ids + 3), c, DropRecord(r, w.ids))
      else if operation == Release || operation == Confirm then (w, Success(r))
      else (w, Failure)
  }

  function SettleWith(w: World, c: Connection, r: Record): (World, Result<Record>) {
    var (w1, ok) := Persist(w, c, r);
    (w1, if ok then Success(r) else Failure)
  }

  function Finish(w: World, owner: Owner, c: Connection, ticket: Id, operation: Operation, identity: Option<string>)
    : (World, Result<Record>)
  {
    if !Holds(w, owner, c, ticket) then (w, Failure)
    else
      var (w1, out) := Settle(WithoutLease(w, c), c, w.lanes[c].lease.value, operation, identity);
      (Next(w1, c), out)
  }

  lemma PersistDropsLease(w: World, c: Connection, n: nat, r: Record)
    ensures var (a, x) := Persist(w.(ids := n), c, r);
            var (b, y) := Persist(WithoutLease(w, c).(ids := n), c, r);
      x == y && b == WithoutLease(a, c)
  {
    assert WithoutLease(w, c).(ids := n) == WithoutLease(w.(ids := n), c);
    hide Persist;
    PersistIgnoresLease(w.(ids := n), c, r, None);
  }

  lemma StateIgnoresLease(w: World, c: Connection, lease: Lease)
    ensures State(WithoutLease(w, c), c) == State(w, c) && WithoutLease(w, c).ids == w.ids
    ensures lease.fetchTicket.Some? ==>
      ValidFetch(w, lease.owner, c, lease.fetchTicket.value) == ValidFetch(WithoutLease(w, c), lease.owner, c, lease.fetchTicket.value)
  {}

  /** `finish` drops its lease last, but nothing in between looks at it. */
  lemma SettleIgnoresLease(w: World, c: Connection, lease: Lease, operation: Operation, identity: Option<string>)
    ensures var (a, x) := Settle(w, c, lease, operation, identity);
            var (b, y) := Settle(WithoutLease(w, c), c, lease, operation, identity);
      x == y && b == WithoutLease(a, c)
  {
    StateIgnoresLease(w, c, lease);
    hide DropRecord, ActivateRecord, CancelRecord, State, Persist, WithoutLease, ValidFetch;
    if State(w, c).Some? {
      var r := State(w, c).value;
      match operation {
        case Activate =>
          PersistDropsLease(w, c, w.ids + 3, DropRecord(r, w.ids));
          if lease.slot.Some? && identity.Some? {
            PersistDropsLease(w, c, w.ids + 1, ActivateRecord(r, c, lease.action, lease.slot.value, identity.value, w.ids));
          }
        case CancelSignIn =>
          PersistDropsLease(w, c, w.ids, CancelRecord(r));
          assert w.(ids := w.ids) == w && WithoutLease(w, c).(ids := w.ids) == WithoutLease(w, c);
        case Missing => PersistDropsLease(w, c, w.ids + 3, DropRecord(r, w.ids));
        case Confirm => PersistDropsLease(w, c, w.ids + 3, DropRecord(r, w.ids));
        case Release =>
        case UnknownOperation =>
      }
    }
  }

  function QueueLegacyCleanup(w: World, owner: Owner, c: Connection, ticket: Id): (World, Result<()>) {
    if !Holds(w, owner, c, ticket) || (c != AnthropicPlan && c != OpenaiPlan) || State(w, c).None? then (w, Failure)
    else
      var r := State(w, c).value;
      var barred := if r.generation.Some? then r else Barrier(r, Legacy, w.ids);
      var (w1, ok) := SoftPersist(w.(ids := w.ids + if r.generation.Some? then 0 else 3), c,
                                  Retire(barred, Some(PastedSecret(c))));
      (w1, if ok then Success(()) else Failure)
  }

  /** The retired keys that survive an acknowledgement. */
  function Unacknowledged(slots: seq<Slot>, cleaned: set<Slot>, r: Record, c: Connection, writeSlot: Option<Slot>,
      abandoned: set<Slot>): (kept: seq<Slot>)
  {
    if slots == [] then []
    else
      var rest := Unacknowledged(slots[1..], cleaned, r, c, writeSlot, abandoned);
      if slots[0] in cleaned && !Guarded(r, c, slots[0]) && writeSlot != Some(slots[0]) && slots[0] !in abandoned then rest
      else [slots[0]] + rest
  }

  /** Only the retired key is written: on a connection with no record nothing else is added. */
  function AcknowledgeCleanup(w: World, owner: Owner, c: Connection, ticket: Id, cleaned: set<Slot>)
    : (World, Result<bool>)
  {
    if !Holds(w, owner, c, ticket) || State(w, c).None? then (w, Failure)
    else
      var r := State(w, c).value;
      var slots := Unacknowledged(r.retired, cleaned, r, c, w.lanes[c].lease.value.slot, w.abandoned);
      var base := if c in w.disk.visible then w.disk.visible[c] else Blank;
      var (w1, ok) := SoftPersist(w, c, base.(retired := slots));
      (w1, Success(ok))
  }

  // ---- Detachment ----

  /** The requests of the other owners, in order. */
  function Without<T>(q: seq<T>, ownerOf: T -> Owner, owner: Owner): (kept: seq<T>) {
    if q == [] then [] else (if ownerOf(q[0]) == owner then [] else [q[0]]) + Without(q[1..], ownerOf, owner)
  }

  function Gone<T>(q: seq<T>, ownerOf: T -> Owner, numberOf: T -> nat, owner: Owner): set<nat> {
    set i | 0 <= i < |q| && ownerOf(q[i]) == owner :: numberOf(q[i])
  }

  function RequestOwner(p: Request): Owner { p.owner }
  function RequestNumber(p: Request): nat { p.number }
  function FetchOwner(p: FetchRequest): Owner { p.owner }
  function FetchNumber(p: FetchRequest): nat { p.number }

  function DropQueues(l: Lane, owner: Owner): Lane {
    l.(queue := Without(l.queue, RequestOwner, owner),
       dropped := l.dropped + Gone(l.queue, RequestOwner, RequestNumber, owner))
  }

  function DropFetchQueue(f: FetchLane, owner: Owner): FetchLane {
    f.(queue := Without(f.queue, FetchOwner, owner),
       dropped := f.dropped + Gone(f.queue, FetchOwner, FetchNumber, owner))
  }

  function DropAllFetchQueues(w: World, owner: Owner): World {
    w.(lanes := map c: Connection | c in w.lanes :: w.lanes[c].(fetch := DropFetchQueue(w.lanes[c].fetch, owner)))
  }

  function DropAllQueues(w: World, owner: Owner): World {
    w.(lanes := map c: Connection | c in w.lanes :: DropQueues(w.lanes[c], owner))
  }

  function DetachFetches(w: World, owner: Owner, order: seq<Connection>): World
    decreases |order|
  {
    if order == [] then w
    else
      var f := w.lanes[order[0]].fetch.lease;
      DetachFetches(if f.Some? && f.value.owner == owner then ReleaseFetch(w, owner, order[0], f.value.ticket) else w,
                    owner, order[1..])
  }

  /** The lease's slot is abandoned; a holder that may have been writing also loses the record. */
  function DetachLease(w: World, owner: Owner, c: Connection): World {
    var l := w.lanes[c];
    if l.lease.None? || l.lease.value.owner != owner then w
    else
      var lease := l.lease.value;
      var w1 := WithoutLease(w, c).(abandoned := w.abandoned + if lease.slot.Some? then {lease.slot.value} else {});
      if lease.action == Read then Next(w1, c)
      else if State(w1, c).None? then Next(Put(w1, c, w1.lanes[c].(fenced := true)), c)
      else Next(Persist(w1.(ids := w1.ids + 3), c, DetachRecord(State(w1, c).value, w1.ids)).0, c)
  }

  function DetachLeases(w: World, owner: Owner, order: seq<Connection>): World
    decreases |order|
  {
    if order == [] then w else DetachLeases(DetachLease(w, owner, order[0]), owner, order[1..])
  }

  /** `order` is the iteration order of the process's hash maps. */
  function Detach(w: World, owner: Owner, order: seq<Connection>): World {
    DetachLeases(DropAllQueues(DetachFetches(DropAllFetchQueues(w, owner), owner, order), owner), owner, order)
  }

  // ---- Snapshots ----

  /** `Failure` when the record is unreadable; a fenced connection is simply not valid. */
  function Valid(w: World, c: Connection, expected: Option<Version>): Result<bool> {
    if w.lanes[c].fenced then Success(false)
    else if State(w, c).None? then Failure
    else Success(Same(State(w, c).value, expected, false))
  }

  function ValidAll(w: World, versions: seq<(Connection, Option<Version>)>): Result<bool> {
    if versions == [] then Success(true)
    else
      var first := Valid(w, versions[0].0, versions[0].1);
      if first == Success(true) then ValidAll(w, versions[1..]) else first
  }

  function ClearSnapshot(w: World, c: Connection, expected: Option<Version>): (World, Result<()>) {
    if State(w, c).None? then (w, Failure)
    else
      var r := State(w, c).value;
      if (expected.Some? && !Same(r, expected, false)) || r.mode == Some(Legacy) then (w, Success(()))
      else
        var (w1, ok) := SoftPersist(w.(ids := w.ids + 1), c, r.(epoch := Some(w.ids), cache := EmptyCache));
        (w1, if ok then Success(()) else Failure)
  }

  function ReadSnapshot(w: World, c: Connection, expected: Option<Version>): (World, Result<Option<string>>) {
    if Valid(w, c, expected).Failure? then (w, Failure)
    else if !Valid(w, c, expected).value then (w, Success(None))
    else
      var cache := State(w, c).value.cache;
      if cache.payload.Some? && cache.version != Some("1") then
        var (w1, cleared) := ClearSnapshot(w, c, expected);
        (w1, if cleared.Success? then Success(None) else Failure)
      else (w, Success(if cache.version != Some("1") then None else cache.payload))
  }

  const LongMin: int := -0x8000_0000_0000_0000
  const LongMax: int := 0x7fff_ffff_ffff_ffff

  /** The stored time in microseconds; an absent, unparsable or overflowing one is the oldest. */
  function EffectiveTime(cache: Cache): int {
    if cache.at.None? || cache.at.value.Garbage? then LongMin
    else
      var at := cache.at.value.value;
      if at < LongMin || at > LongMax then LongMin
      else if cache.micros then at
      else if at * 1000 < LongMin || at * 1000 > LongMax then LongMin else at * 1000
  }

  function WriteSnapshot(w: World, c: Connection, expected: Option<Version>, payload: string, at: int)
    : (World, Result<bool>)
  {
    if Valid(w, c, expected).Failure? then (w, Failure)
    else if !Valid(w, c, expected).value then (w, Success(false))
    else
      var r := State(w, c).value;
      if at < EffectiveTime(r.cache) then (w, Success(false))
      else
        var (w1, ok) := SoftPersist(w, c, r.(cache := Cache(Some(payload), Some(Number(at)), Some("1"), true)));
        (w1, Success(ok))
  }

  function UpgradeSnapshotTimestamp(w: World, c: Connection, expected: Option<Version>, payload: string, at: int)
    : (World, Result<bool>)
  {
    if Valid(w, c, expected).Failure? then (w, Failure)
    else if !Valid(w, c, expected).value then (w, Success(false))
    else
      var r := State(w, c).value;
      if r.cache.payload != Some(payload) then (w, Success(false))
      else if r.cache.micros then (w, Success(true))
      else
        var (w1, ok) := SoftPersist(w, c, r.(cache := r.cache.(at := Some(Number(at)), micros := true)));
        (w1, Success(ok))
  }

  // ---- Process lifetime ----

  /** A new process finds the durable file and nothing else; ids stay unique forever. */
  function Restart(w: World): World {
    World(w.disk.(visible := w.disk.durable), w.ids, {}, IdleLanes())
  }
}
