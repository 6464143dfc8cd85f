/** Network reservations, a vanishing owner, and a new process. */
module LeaseDetach {
  import opened Wrappers
  import opened CredentialRecords
  import opened LeaseWorld
  import opened Safety
  import opened LeaseSteps
  import opened LeaseCalls

  // ---- Reservations ----

  lemma FetchMoves(g: Ghosts, w: World, w1: World, c: Connection)
    requires Safe(g, w) && w1.disk == w.disk && w.ids <= w1.ids && w1.abandoned == w.abandoned
    requires forall x :: x != c ==> w1.lanes[x] == w.lanes[x]
    requires w1.lanes[c] == w.lanes[c].(fetch := w1.lanes[c].fetch)
    requires var f := w1.lanes[c].fetch.lease;
      f.None? || f == w.lanes[c].fetch.lease || w.ids <= f.value.ticket < w1.ids
    ensures Stepped(g, w, w1, c, true)
  {
    hide Conn, TargetOf, Cut;
    forall x ensures ConnAt(g, w1, x) {
      assert ConnAt(g, w, x);
      ConnLater(g, w.ids, w1.ids, w.abandoned, x, Get(w.disk.visible, x), Get(w.disk.durable, x), w.lanes[x]);
      if x == c {
        FetchTicketMinted(g, w, c);
        FetchConn(g, w1.ids, w.abandoned, c, Get(w.disk.visible, c), Get(w.disk.durable, c), w.lanes[c], w1.lanes[c].fetch);
      }
    }
    forall x, n: nat | n <= w.ids && Cut(w, x, n) ensures Cut(w1, x, n) { CutOfDisk(w, w1, x, n); }
  }

  lemma FetchTicketMinted(g: Ghosts, w: World, c: Connection)
    requires ConnAt(g, w, c)
    ensures w.lanes[c].fetch.lease.Some? ==> w.lanes[c].fetch.lease.value.ticket < w.ids
  {
    hide Sound, Synced, Held, Names;
  }

  lemma CutOfDisk(w: World, w1: World, c: Connection, n: nat)
    requires Cut(w, c, n) && w1.disk == w.disk
    ensures Cut(w1, c, n)
  {}

  lemma FetchConn(g: Ghosts, n: nat, ab: set<Slot>, c: Connection, v: Option<Record>, d: Option<Record>, l: Lane,
      f: FetchLane)
    requires Conn(g, n, ab, c, v, d, l) && (f.lease.Some? ==> f.lease.value.ticket < n)
    ensures Conn(g, n, ab, c, v, d, l.(fetch := f))
  {
    hide Sound, Names, Guarded, HeldMode, SoundOrLegacy, Owned, Core;
  }

  lemma AcquireFetchKeeps(g: Ghosts, w: World, owner: Owner, c: Connection)
    requires Safe(g, w)
    ensures Stepped(g, w, AcquireFetch(w, owner, c), c, true)
  {
    hide Safe, Stepped;
    FetchMoves(g, w, AcquireFetch(w, owner, c), c);
  }

  lemma ReleaseFetchKeeps(g: Ghosts, w: World, owner: Owner, c: Connection, ticket: Id)
    requires Safe(g, w)
    ensures Stepped(g, w, ReleaseFetch(w, owner, c, ticket), c, true)
    ensures forall x :: ReleaseFetch(w, owner, c, ticket).lanes[x].lease == w.lanes[x].lease
    ensures forall x :: ReleaseFetch(w, owner, c, ticket).lanes[x].queue == w.lanes[x].queue
    ensures ReleaseFetch(w, owner, c, ticket).disk == w.disk
  {
    hide Safe, Stepped;
    FetchMoves(g, w, ReleaseFetch(w, owner, c, ticket), c);
  }

  /** A call that leaves leases, abandoned slots and every cancel target alone. */
  ghost predicate Calm(g: Ghosts, w: World, w1: World) {
    && Called(g, w, w1) && w1.abandoned == w.abandoned && w1.disk == w.disk
    && (forall x :: w1.lanes[x].lease == w.lanes[x].lease)
    && (forall x :: LiveTarget(w1, x) == LiveTarget(w, x))
  }

  lemma CalmTwice(g: Ghosts, w: World, w1: World, w2: World)
    requires Calm(g, w, w1) && Calm(g, w1, w2)
    ensures Calm(g, w, w2)
  {
    hide Safe, LiveTarget, Onward;
    OnwardTwice(w, w1, w2);
  }

  lemma {:induction false} DetachFetchesKeeps(g: Ghosts, w: World, owner: Owner, order: seq<Connection>)
    requires Safe(g, w)
    ensures Calm(g, w, DetachFetches(w, owner, order))
    decreases |order|
  {
    hide Safe, LiveTarget, Onward, ReleaseFetch;
    if order == [] {
      NothingStepped(g, w, OpenaiPlan, true);
    } else {
      var c := order[0];
      var f := w.lanes[c].fetch.lease;
      NothingStepped(g, w, c, true);
      if f.Some? { ReleaseFetchKeeps(g, w, owner, c, f.value.ticket); }
      var w1 := if f.Some? && f.value.owner == owner then ReleaseFetch(w, owner, c, f.value.ticket) else w;
      DetachFetchesKeeps(g, w1, owner, order[1..]);
      CalmTwice(g, w, w1, DetachFetches(w1, owner, order[1..]));
    }
  }

  lemma DropQueuesKeeps(g: Ghosts, w: World, owner: Owner)
    requires Safe(g, w)
    ensures Calm(g, w, DropAllQueues(w, owner)) && Calm(g, w, DropAllFetchQueues(w, owner))
  {
    hide Safe, LiveTarget, Onward, Without, Gone;
    SameHoldKeeps(g, w, DropAllQueues(w, owner));
    SameHoldKeeps(g, w, DropAllFetchQueues(w, owner));
  }

  // ---- Abandoned slots ----

  function Abandon(w: World, c: Connection): World
    requires w.lanes[c].lease.Some?
  {
    var slot := w.lanes[c].lease.value.slot;
    WithoutLease(w, c).(abandoned := w.abandoned + if slot.Some? then {slot.value} else {})
  }

  lemma NamedAtHome(g: Ghosts, n: nat, c: Connection, o: Option<Record>, s: Slot)
    requires Stored(g, c, n, o) && Home(s) != c
    ensures !Names(OrLegacy(o), s) && OrLegacy(o).pendingSlot != Some(s)
  {}

  lemma AbandonElsewhere(g: Ghosts, n: nat, ab: set<Slot>, c: Connection, v: Option<Record>, d: Option<Record>,
      l: Lane, s: Slot)
    requires Conn(g, n, ab, c, v, d, l) && Home(s) != c
    ensures Conn(g, n, ab + {s}, c, v, d, l)
  {
    hide Sound, Names, Held, Core, HeldMode;
    UnnamedElsewhere(g, n, ab, c, v, d, l, s);
    hide Stored, SoundOrLegacy, Unnamed, OrLegacy;
    if l.lease.Some? { HeldElsewhere(g, n, ab, c, v, d, l, s); }
  }

  lemma UnnamedElsewhere(g: Ghosts, n: nat, ab: set<Slot>, c: Connection, v: Option<Record>, d: Option<Record>,
      l: Lane, s: Slot)
    requires Base(g, n, ab, c, v, d, l) && Home(s) != c
    ensures Unnamed(s, v, d, l) && OrLegacy(v).pendingSlot != Some(s)
  {
    NamedAtHome(g, n, c, v, s);
    NamedAtHome(g, n, c, d, s);
    if l.prior.Some? { NamedAtHome(g, n, c, if l.prior.value == LegacyState then None else l.prior, s); }
    hide Sound, Names;
  }

  lemma HeldElsewhere(g: Ghosts, n: nat, ab: set<Slot>, c: Connection, v: Option<Record>, d: Option<Record>, l: Lane,
      s: Slot)
    requires l.lease.Some? && Held(g, n, ab, c, v, d, l) && Home(s) != c
    ensures Held(g, n, ab + {s}, c, v, d, l)
  {
    hide Unnamed, Unguarded, HeldMode;
  }

  lemma AbandonHere(g: Ghosts, n: nat, ab: set<Slot>, c: Connection, v: Option<Record>, d: Option<Record>, l: Lane)
    requires Conn(g, n, ab, c, v, d, l) && l.lease.Some? && l.lease.value.slot.Some?
    ensures Base(g, n, ab + {l.lease.value.slot.value}, c, v, d, l.(lease := None))
    ensures l.lease.value.action == Read ==> Synced(ab + {l.lease.value.slot.value}, v, d, l.(lease := None))
    ensures l.lease.value.slot.value.Minted? && Home(l.lease.value.slot.value) == c && l.lease.value.slot.value.id < n
  {
    hide Sound, Names, Guarded, SoundOrLegacy, Core;
  }

  lemma AbandonKeeps(g: Ghosts, w: World, c: Connection)
    requires Safe(g, w) && w.lanes[c].lease.Some?
    ensures AllBut(g, Abandon(w, c), c) && BaseAt(g, Abandon(w, c), c)
    ensures w.lanes[c].lease.value.action == Read ==> Safe(g, Abandon(w, c))
    ensures Onward(w, Abandon(w, c)) && forall x :: LiveTarget(Abandon(w, c), x) == LiveTarget(w, x)
  {
    hide Conn, Base, Synced, Cut, TargetOf;
    var w1 := Abandon(w, c);
    var slot := w.lanes[c].lease.value.slot;
    WithoutLeaseKeeps(g, w, c);
    SafeParts(g, w, c);
    if slot.None? {
      assert w1 == WithoutLease(w, c);
      SafeParts(g, w1, c);
    } else {
      AbandonHere(g, w.ids, w.abandoned, c, Get(w.disk.visible, c), Get(w.disk.durable, c), w.lanes[c]);
      forall x | x != c ensures ConnAt(g, w1, x) {
        assert ConnAt(g, w, x);
        AbandonElsewhere(g, w.ids, w.abandoned, x, Get(w.disk.visible, x), Get(w.disk.durable, x), w.lanes[x], slot.value);
      }
      if w.lanes[c].lease.value.action == Read { PersistedConn(g, w1, c); SafeFrom(g, w1, c); }
    }
    forall x, n: nat | n <= w.ids && Cut(w, x, n) ensures Cut(w1, x, n) { CutOfDisk(w, w1, x, n); }
  }

  // ---- detach ----

  predicate KeepsTarget(w: World, owner: Owner, c: Connection) {
    w.lanes[c].lease.None? || w.lanes[c].lease.value.owner != owner || w.lanes[c].lease.value.action == Read
  }

  /** A vanished writer: its record is parked as pending, or the connection is fenced. */
  lemma DetachWriterKeeps(g: Ghosts, w: World, c: Connection)
    requires Safe(g, w) && w.lanes[c].lease.Some? && w.lanes[c].lease.value.action != Read
    ensures var w1 := Abandon(w, c);
      && State(w1, c).Some?
      && var w2 := Persist(w1.(ids := w1.ids + 3), c, DetachRecord(State(w1, c).value, w1.ids)).0;
         && Safe(g, w2) && Onward(w, w2) && SameElsewhere(w, w2, c) && Newer(w.disk, w2.disk, c, w.ids)
         && w2.lanes[c].lease.None? && w2.lanes[c].queue == w.lanes[c].queue && w2.abandoned == w1.abandoned
         && forall x :: x != c ==> w2.lanes[x] == w.lanes[x]
  {
    DetachFacts(g, w, c);
    var w1 := Abandon(w, c);
    assert State(w1, c) == State(w, c);
    hide Sound, Safe, AllBut, BaseAt, Names, DetachRecord, Persist, State, TargetOf, LiveTarget, Onward, Newer,
      SameElsewhere;
    AbandonKeeps(g, w, c);
    MintKeeps(g, w1, c, w1.ids + 3);
    ParkKeeps(g, w, w1.(ids := w1.ids + 3), c, DetachRecord(State(w, c).value, w.ids));
  }

  /** The commit that parks the record, once the lease is gone and the ids are minted. */
  lemma ParkKeeps(g: Ghosts, w: World, w0: World, c: Connection, r': Record)
    requires w.lanes[c].lease.Some? && w0 == Abandon(w, c).(ids := w.ids + 3)
    requires AllBut(g, w0, c) && BaseAt(g, w0, c)
    requires r'.pendingSlot.None? && r'.epoch == Some(w.ids + 2) && Sound(g, c, w.ids + 3, r') && forall s :: !Names(r', s)
    requires forall x :: LiveTarget(Abandon(w, c), x) == LiveTarget(w, x)
    ensures var w2 := Persist(w0, c, r').0;
      && Safe(g, w2) && Onward(w, w2) && SameElsewhere(w, w2, c) && Newer(w.disk, w2.disk, c, w.ids)
      && w2.lanes[c].lease.None? && w2.lanes[c].queue == w.lanes[c].queue && w2.abandoned == w0.abandoned
      && forall x :: x != c ==> w2.lanes[x] == w.lanes[x]
  {
    SameVisibleTargets(w, Abandon(w, c), w0);
    hide Sound, Safe, AllBut, BaseAt, Names, Persist, TargetOf, LiveTarget, Cut, Newer;
    PersistKeeps(g, w0, c, r', w.ids);
    var w2 := Persist(w0, c, r').0;
    forall x, n: nat | n <= w.ids && Cut(w, x, n) ensures Cut(w2, x, n) { CutOfDisk(w, w0, x, n); }
    OnwardBy(w, w2, c);
  }

  lemma DetachFacts(g: Ghosts, w: World, c: Connection)
    requires Safe(g, w)
    ensures State(w, c).Some?
    ensures var r' := DetachRecord(State(w, c).value, w.ids);
      r'.pendingSlot.None? && r'.epoch == Some(w.ids + 2) && Sound(g, c, w.ids + 3, r') && forall s :: !Names(r', s)
  {
    StateReadable(g, w, c);
    StateSound(g, w, c);
    DetachSound(g, c, w.ids, State(w, c).value);
    hide Sound, Safe;
  }

  lemma SameVisibleTargets(w: World, w1: World, w0: World)
    requires w0 == w1.(ids := w0.ids) && forall x :: LiveTarget(w1, x) == LiveTarget(w, x)
    ensures forall x :: LiveTarget(w0, x) == LiveTarget(w, x)
  {
    hide TargetOf;
    forall x ensures LiveTarget(w0, x) == LiveTarget(w1, x) {}
  }

  /** Across connections: records stay, snapshots only get newer, abandoned slots stay so. */
  ghost predicate Accrues(w: World, w1: World) {
    && w.ids <= w1.ids && w.abandoned <= w1.abandoned
    && forall x :: Newer(w.disk, w1.disk, x, w.ids)
  }

  lemma AccruesTwice(w: World, w1: World, w2: World)
    requires Accrues(w, w1) && Accrues(w1, w2)
    ensures Accrues(w, w2)
  {
    hide EffectiveTime;
    forall x ensures Newer(w.disk, w2.disk, x, w.ids) {
      assert Newer(w.disk, w1.disk, x, w.ids) && Newer(w1.disk, w2.disk, x, w1.ids);
    }
  }

  lemma ElsewhereAccrues(w: World, w1: World, c: Connection)
    requires SameElsewhere(w, w1, c) && Newer(w.disk, w1.disk, c, w.ids) && w.ids <= w1.ids && w.abandoned <= w1.abandoned
    ensures Accrues(w, w1)
  {
    forall x ensures Newer(w.disk, w1.disk, x, w.ids) {
      if x != c { SameVisibleNewer(w, w1, x); }
    }
  }

  lemma SameVisibleNewer(w: World, w1: World, c: Connection)
    requires Get(w1.disk.visible, c) == Get(w.disk.visible, c)
    ensures Newer(w.disk, w1.disk, c, w.ids)
  {}

  lemma SteppedAccrues(g: Ghosts, w: World, w1: World, c: Connection, keeps: bool)
    requires Stepped(g, w, w1, c, keeps)
    ensures Accrues(w, w1)
  {
    hide Safe, Newer, LiveTarget, Cut;
    ElsewhereAccrues(w, w1, c);
  }

  lemma DetachLeaseKeeps(g: Ghosts, w: World, owner: Owner, c: Connection)
    requires Safe(g, w)
    ensures var w1 := DetachLease(w, owner, c);
      && Called(g, w, w1) && SameElsewhere(w, w1, c) && Accrues(w, w1)
      && (KeepsTarget(w, owner, c) && NoDeletes(w.lanes[c].queue) ==> LiveTarget(w1, c) == LiveTarget(w, c))
      && forall x :: x != c ==> w1.lanes[x] == w.lanes[x]
  {
    hide Safe, Onward, LiveTarget, Next, Persist, State, DetachRecord, Newer, Accrues;
    NothingStepped(g, w, c, true);
    SteppedAccrues(g, w, w, c, true);
    var l := w.lanes[c];
    if l.lease.Some? && l.lease.value.owner == owner {
      if l.lease.value.action == Read {
        DetachReaderMoves(g, w, c);
      } else {
        DetachWriterMoves(g, w, c);
      }
    }
  }

  lemma DetachReaderMoves(g: Ghosts, w: World, c: Connection)
    requires Safe(g, w) && w.lanes[c].lease.Some? && w.lanes[c].lease.value.action == Read
    ensures var w1 := Next(Abandon(w, c), c);
      && Called(g, w, w1) && SameElsewhere(w, w1, c) && Accrues(w, w1)
      && (NoDeletes(w.lanes[c].queue) ==> LiveTarget(w1, c) == LiveTarget(w, c))
      && forall x :: x != c ==> w1.lanes[x] == w.lanes[x]
  {
    hide Safe, Onward, LiveTarget, Next, Newer, Accrues;
    AbandonKeeps(g, w, c);
    var w1 := Abandon(w, c);
    NextKeeps(g, w1, c);
    OnwardTwice(w, w1, Next(w1, c));
    SameVisibleNewer(w, w1, c);
    ElsewhereAccrues(w, w1, c);
    SteppedAccrues(g, w1, Next(w1, c), c, NoDeletes(w1.lanes[c].queue));
    AccruesTwice(w, w1, Next(w1, c));
  }

  lemma DetachWriterMoves(g: Ghosts, w: World, c: Connection)
    requires Safe(g, w) && w.lanes[c].lease.Some? && w.lanes[c].lease.value.action != Read
    ensures var w1 := Abandon(w, c);
      && State(w1, c).Some?
      && var w3 := Next(Persist(w1.(ids := w1.ids + 3), c, DetachRecord(State(w1, c).value, w1.ids)).0, c);
         && Called(g, w, w3) && SameElsewhere(w, w3, c) && Accrues(w, w3)
         && forall x :: x != c ==> w3.lanes[x] == w.lanes[x]
  {
    DetachWriterKeeps(g, w, c);
    hide Safe, Onward, LiveTarget, Next, Persist, State, DetachRecord, Newer, Accrues, SameElsewhere, Abandon;
    var w1 := Abandon(w, c);
    var w2 := Persist(w1.(ids := w1.ids + 3), c, DetachRecord(State(w1, c).value, w1.ids)).0;
    NextKeeps(g, w2, c);
    OnwardTwice(w, w2, Next(w2, c));
    IdsGrow(w, w2);
    ElsewhereAccrues(w, w2, c);
    SteppedAccrues(g, w2, Next(w2, c), c, NoDeletes(w2.lanes[c].queue));
    AccruesTwice(w, w2, Next(w2, c));
    SameElsewhereTwice(w, w2, Next(w2, c), c);
  }

  lemma IdsGrow(w: World, w1: World)
    requires Onward(w, w1)
    ensures w.ids <= w1.ids
  {
    hide Cut;
  }

  predicate NoRepeats(order: seq<Connection>) { forall i, j :: 0 <= i < j < |order| ==> order[i] != order[j] }

  lemma {:induction false} DetachLeasesKeeps(g: Ghosts, w: World, owner: Owner, order: seq<Connection>)
    requires Safe(g, w) && NoRepeats(order)
    ensures var w1 := DetachLeases(w, owner, order);
      && Called(g, w, w1) && Accrues(w, w1)
      && (forall x :: x in order && KeepsTarget(w, owner, x) && NoDeletes(w.lanes[x].queue) ==> LiveTarget(w1, x) == LiveTarget(w, x))
      && (forall x :: x !in order ==> LiveTarget(w1, x) == LiveTarget(w, x) && w1.lanes[x] == w.lanes[x])
    decreases |order|
  {
    hide Safe, Onward, LiveTarget, DetachLease, Accrues;
    if order == [] {
      NothingStepped(g, w, OpenaiPlan, true);
      SteppedAccrues(g, w, w, OpenaiPlan, true);
    } else {
      var c := order[0];
      DetachLeaseKeeps(g, w, owner, c);
      var w1 := DetachLease(w, owner, c);
      assert c !in order[1..];
      DetachLeasesKeeps(g, w1, owner, order[1..]);
      OnwardTwice(w, w1, DetachLeases(w1, owner, order[1..]));
      AccruesTwice(w, w1, DetachLeases(w1, owner, order[1..]));
    }
  }

  lemma {:induction false} WithoutSubset<T>(q: seq<T>, ownerOf: T -> Owner, owner: Owner, x: T)
    ensures x in Without(q, ownerOf, owner) <==> x in q && ownerOf(x) != owner
  {
    if q != [] { WithoutSubset(q[1..], ownerOf, owner, x); }
  }

  lemma DetachKeeps(g: Ghosts, w: World, owner: Owner, order: seq<Connection>)
    requires Safe(g, w) && NoRepeats(order)
    ensures var w1 := Detach(w, owner, order);
      && Called(g, w, w1) && Accrues(w, w1)
      && (forall x :: KeepsTarget(w, owner, x) && NoDeletes(w.lanes[x].queue) ==> LiveTarget(w1, x) == LiveTarget(w, x))
  {
    hide Safe, Onward, LiveTarget, DetachLeases, DetachFetches, DropQueues, DropFetchQueue, Accrues, NoDeletes;
    var a := DropAllFetchQueues(w, owner);
    DropQueuesKeeps(g, w, owner);
    DetachFetchesKeeps(g, a, owner, order);
    var b := DetachFetches(a, owner, order);
    DropQueuesKeeps(g, b, owner);
    var d := DropAllQueues(b, owner);
    CalmTwice(g, w, a, b);
    CalmTwice(g, w, b, d);
    CalmAccrues(g, w, d);
    DetachLeasesKeeps(g, d, owner, order);
    AccruesTwice(w, d, DetachLeases(d, owner, order));
    OnwardTwice(w, d, DetachLeases(d, owner, order));
    forall x | NoDeletes(w.lanes[x].queue) ensures NoDeletes(d.lanes[x].queue) {
      DropKeepsNoDeletes(w, owner, order, x);
    }
  }

  lemma CalmAccrues(g: Ghosts, w: World, w1: World)
    requires Calm(g, w, w1)
    ensures Accrues(w, w1)
  {
    hide Safe, LiveTarget, Cut;
    IdsGrow(w, w1);
    forall x { SameVisibleNewer(w, w1, x); }
  }

  lemma {:induction false} DetachFetchesQueues(w: World, owner: Owner, order: seq<Connection>, c: Connection)
    ensures DetachFetches(w, owner, order).lanes[c].queue == w.lanes[c].queue
    decreases |order|
  {
    if order != [] {
      var f := w.lanes[order[0]].fetch.lease;
      DetachFetchesQueues(if f.Some? && f.value.owner == owner then ReleaseFetch(w, owner, order[0], f.value.ticket) else w,
                          owner, order[1..], c);
    }
  }

  lemma DropKeepsNoDeletes(w: World, owner: Owner, order: seq<Connection>, c: Connection)
    requires NoDeletes(w.lanes[c].queue)
    ensures NoDeletes(DropAllQueues(DetachFetches(DropAllFetchQueues(w, owner), owner, order), owner).lanes[c].queue)
  {
    hide DetachFetches, Without, Gone;
    DetachFetchesQueues(DropAllFetchQueues(w, owner), owner, order, c);
    var q := w.lanes[c].queue;
    var kept := Without(q, RequestOwner, owner);
    assert DropAllQueues(DetachFetches(DropAllFetchQueues(w, owner), owner, order), owner).lanes[c].queue == kept;
    forall i | 0 <= i < |kept| ensures kept[i].action != Delete { WithoutSubset(q, RequestOwner, owner, kept[i]); }
  }

  // ---- A new process ----

  lemma RestartKeeps(g: Ghosts, w: World)
    requires Safe(g, w)
    ensures Called(g, w, Restart(w))
    ensures forall x :: !w.lanes[x].fenced ==> LiveTarget(Restart(w), x) == LiveTarget(w, x)
  {
    hide Sound, TargetOf, Core;
    var w1 := Restart(w);
    forall x ensures ConnAt(g, w1, x) && (!w.lanes[x].fenced ==> LiveTarget(w1, x) == LiveTarget(w, x)) {
      assert ConnAt(g, w, x);
      IdleAt(x);
      CoreTarget'(OrLegacy(Get(w.disk.visible, x)), OrLegacy(Get(w.disk.durable, x)));
    }
    forall x, t: Id ensures (DeadTicket(w, x, t) ==> DeadTicket(w1, x, t)) && (DeadFetch(w, x, t) ==> DeadFetch(w1, x, t)) {
      IdleAt(x);
    }
  }

  lemma IdleAt(c: Connection)
    ensures var m: Lanes := IdleLanes(); m[c] == IdleLane
  {
    match c
    case OpenaiPlan => case OpenaiPlatform => case AnthropicPlan =>
    case AnthropicPlatform => case CursorPlan => case CursorPlatform =>
  }

  lemma CoreTarget'(a: Record, b: Record)
    ensures Core(a) == Core(b) ==> TargetOf(a) == TargetOf(b)
  {
    if Core(a) == Core(b) { CoreTarget(a, b); }
  }
}
