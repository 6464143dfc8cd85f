/** Each engine call keeps every connection safe, lets no superseded version, ticket or
    reservation become current again, and moves the cancel target only where it says so. */
module LeaseSteps {
  import opened Wrappers
  import opened CredentialRecords
  import opened LeaseWorld
  import opened Safety

  // ---- Two-state properties ----

  /** Neither the visible nor the durable record carries an epoch minted before `n`. */
  predicate Cut(w: World, c: Connection, n: nat) {
    && c in w.disk.visible && w.disk.visible[c].epoch.Some? && w.disk.visible[c].epoch.value >= n
    && c in w.disk.durable && w.disk.durable[c].epoch.Some? && w.disk.durable[c].epoch.value >= n
  }

  predicate DeadTicket(w: World, c: Connection, t: Id) {
    t < w.ids && (w.lanes[c].lease.Some? ==> w.lanes[c].lease.value.ticket != t)
  }

  predicate DeadFetch(w: World, c: Connection, t: Id) {
    t < w.ids && (w.lanes[c].fetch.lease.Some? ==> w.lanes[c].fetch.lease.value.ticket != t)
  }

  ghost predicate Onward(w: World, w': World) {
    && w.ids <= w'.ids
    && (forall c, n: nat :: n <= w.ids && Cut(w, c, n) ==> Cut(w', c, n))
    && (forall c, t: Id :: DeadTicket(w, c, t) ==> DeadTicket(w', c, t))
    && (forall c, t: Id :: DeadFetch(w, c, t) ==> DeadFetch(w', c, t))
  }

  /** What a cancelled sign-in would restore: after a refused commit, the record before it. */
  function LiveTarget(w: World, c: Connection): Target {
    TargetOf(if w.lanes[c].prior.Some? then w.lanes[c].prior.value else Known(w.disk.visible, c))
  }

  predicate FiledOrKept(d: Disk, d': Disk, c: Connection) {
    Get(d'.durable, c) == Get(d.durable, c) || Get(d'.durable, c) == Get(d.visible, c)
  }

  /** An operation on `c` leaves every other connection's record and cancel target alone; at
      the most its visible record reaches the file. */
  ghost predicate SameElsewhere(w: World, w': World, c: Connection) {
    && (forall d :: d != c ==> LiveTarget(w', d) == LiveTarget(w, d))
    && (forall d :: d != c ==> Get(w'.disk.visible, d) == Get(w.disk.visible, d))
    && (forall d :: d != c ==> FiledOrKept(w.disk, w'.disk, d))
  }

  /** The visible record stays, and within one epoch its snapshot only gets newer. */
  predicate Newer(d: Disk, d': Disk, c: Connection, m: nat) {
    c in d.visible ==>
      && c in d'.visible
      && var a, b := d.visible[c], d'.visible[c];
         (b.epoch == a.epoch && EffectiveTime(a.cache) <= EffectiveTime(b.cache))
         || (b.epoch.Some? && b.epoch.value >= m)
  }

  // ---- Commits ----

  lemma BaseLater(g: Ghosts, n: nat, m: nat, ab: set<Slot>, c: Connection, v: Option<Record>, d: Option<Record>,
      l: Lane)
    requires Base(g, n, ab, c, v, d, l) && n <= m
    ensures Base(g, m, ab, c, v, d, l) && Base(g, m, ab, c, v, v, l)
  {
    hide Sound, Names;
    if v.Some? { SoundLater(g, c, n, m, v.value); }
    if d.Some? { SoundLater(g, c, n, m, d.value); }
    if l.prior.Some? && l.prior.value != LegacyState { SoundLater(g, c, n, m, l.prior.value); }
  }

  lemma HeldLater(g: Ghosts, n: nat, m: nat, ab: set<Slot>, c: Connection, v: Option<Record>, d: Option<Record>,
      l: Lane)
    requires l.lease.Some? && Held(g, n, ab, c, v, d, l) && n <= m
    ensures Held(g, m, ab, c, v, d, l) && Held(g, m, ab, c, v, v, l)
  {
    hide Names, Guarded, HeldMode, OrLegacy;
  }

  lemma ConnLater(g: Ghosts, n: nat, m: nat, ab: set<Slot>, c: Connection, v: Option<Record>, d: Option<Record>,
      l: Lane)
    requires Conn(g, n, ab, c, v, d, l) && n <= m
    ensures Conn(g, m, ab, c, v, d, l) && Conn(g, m, ab, c, v, v, l)
  {
    hide Base, Held;
    BaseLater(g, n, m, ab, c, v, d, l);
    if l.lease.Some? { HeldLater(g, n, m, ab, c, v, d, l); }
  }

  /** More ids minted: nothing else moves. */
  lemma MintKeeps(g: Ghosts, w: World, c: Connection, m: nat)
    requires AllBut(g, w, c) && BaseAt(g, w, c) && w.ids <= m
    ensures AllBut(g, w.(ids := m), c) && BaseAt(g, w.(ids := m), c)
    ensures Onward(w, w.(ids := m))
  {
    hide Conn, Base;
    BaseLater(g, w.ids, m, w.abandoned, c, Get(w.disk.visible, c), Get(w.disk.durable, c), w.lanes[c]);
    forall d | d != c ensures ConnAt(g, w.(ids := m), d) {
      assert ConnAt(g, w, d);
      ConnLater(g, w.ids, m, w.abandoned, d, Get(w.disk.visible, d), Get(w.disk.durable, d), w.lanes[d]);
    }
  }

  lemma CommitShape(d: Disk, c: Connection, r: Record)
    ensures var (e, ok) := Commit(d, d.visible[c := r]);
      && (Get(e.visible, c) == Get(d.visible, c) || Get(e.visible, c) == Some(r))
      && (Get(e.durable, c) == Get(d.durable, c) || Get(e.durable, c) == Some(r))
      && (ok ==> Get(e.visible, c) == Some(r) && Get(e.durable, c) == Some(r))
      && (ok == NextFault(d).Saved?)
      && (forall x :: x != c ==> Get(e.visible, x) == Get(d.visible, x))
      && (forall x :: x != c ==> Get(e.durable, x) == Get(d.durable, x) || Get(e.durable, x) == Get(d.visible, x))
  {}

  /** A commit for `c` leaves every other connection safe, on whatever file it ends up. */
  lemma CommitElsewhere(g: Ghosts, w: World, w1: World, c: Connection, r: Record)
    requires AllBut(g, w, c)
    requires w1.disk == Commit(w.disk, w.disk.visible[c := r]).0
    requires w1.ids == w.ids && w1.abandoned == w.abandoned && forall x :: x != c ==> w1.lanes[x] == w.lanes[x]
    ensures AllBut(g, w1, c) && SameElsewhere(w, w1, c)
  {
    hide Conn, Commit, TargetOf;
    CommitShape(w.disk, c, r);
    forall x | x != c ensures ConnAt(g, w1, x) {
      assert ConnAt(g, w, x);
      ConnLater(g, w.ids, w.ids, w.abandoned, x, Get(w.disk.visible, x), Get(w.disk.durable, x), w.lanes[x]);
    }
    forall x | x != c ensures LiveTarget(w1, x) == LiveTarget(w, x) {
      assert Get(w1.disk.visible, x) == Get(w.disk.visible, x);
      assert Known(w1.disk.visible, x) == Known(w.disk.visible, x);
    }
  }

  lemma CommitCuts(w: World, w1: World, c: Connection, r: Record, m: nat)
    requires w1.disk == Commit(w.disk, w.disk.visible[c := r]).0
    requires r.epoch.Some?
    requires r.epoch.value >= m || (c in w.disk.visible && r.epoch == w.disk.visible[c].epoch)
    ensures forall x, n: nat :: n <= m && Cut(w, x, n) ==> Cut(w1, x, n)
  {
    CommitShape(w.disk, c, r);
    forall x, n: nat | n <= m && Cut(w, x, n) ensures Cut(w1, x, n) {
      assert Get(w.disk.visible, x).Some? && Get(w.disk.durable, x).Some?;
      assert Get(w1.disk.visible, x).Some? && Get(w1.disk.durable, x).Some?;
    }
  }

  /** A fencing commit of a sound record, on a connection whose lease is set aside. */
  lemma PersistKeeps(g: Ghosts, w: World, c: Connection, r: Record, m: nat)
    requires AllBut(g, w, c) && BaseAt(g, w, c) && w.lanes[c].lease.None?
    requires Sound(g, c, w.ids, r) && m <= w.ids
    requires forall s :: s in w.abandoned ==> !Names(r, s) && r.pendingSlot != Some(s)
    requires r.epoch.value >= m || (c in w.disk.visible && r.epoch == w.disk.visible[c].epoch && r.cache == w.disk.visible[c].cache)
    ensures var (w1, ok) := Persist(w, c, r);
      && Safe(g, w1)
      && w1.ids == w.ids && w1.abandoned == w.abandoned
      && (forall x :: x != c ==> w1.lanes[x] == w.lanes[x])
      && w1.lanes[c] == w.lanes[c].(fenced := w1.lanes[c].fenced, prior := w1.lanes[c].prior)
      && (ok == NextFault(w.disk).Saved?)
      && (ok ==> Get(w1.disk.visible, c) == Some(r) && Get(w1.disk.durable, c) == Some(r) && w1.lanes[c] == w.lanes[c])
      && (!ok ==> w1.lanes[c].fenced && LiveTarget(w1, c) == LiveTarget(w, c))
      && SameElsewhere(w, w1, c) && Newer(w.disk, w1.disk, c, m)
      && (forall x, n: nat :: n <= m && Cut(w, x, n) ==> Cut(w1, x, n))
  {
    assert r.epoch.Some?;
    PersistShape(w, c, r);
    var (w1, ok) := Persist(w, c, r);
    PersistNewer(w.disk, w1.disk, c, r, m);
    hide Newer, Persist, Conn, Base, Synced, Commit, Sound, TargetOf, Cut, LiveTarget, Names;
    CommitElsewhere(g, w, w1, c, r);
    CommitCuts(w, w1, c, r, m);
    PersistHere(g, w.ids, w.abandoned, c, Get(w.disk.visible, c), Get(w.disk.durable, c), w.lanes[c],
                r, Get(w1.disk.visible, c), Get(w1.disk.durable, c), w1.lanes[c], ok);
    forall x ensures ConnAt(g, w1, x) {
      if x == c { PersistedConn(g, w1, c); }
    }
  }

  lemma PersistShape(w: World, c: Connection, r: Record)
    ensures var (w1, ok) := Persist(w, c, r);
      && w1.disk == Commit(w.disk, w.disk.visible[c := r]).0
      && w1.ids == w.ids && w1.abandoned == w.abandoned
      && (forall x :: x != c ==> w1.lanes[x] == w.lanes[x])
      && ok == NextFault(w.disk).Saved?
      && w1.lanes[c] == w.lanes[c].(
           fenced := w.lanes[c].fenced || !ok,
           prior := if ok || w.lanes[c].prior.Some? then w.lanes[c].prior else Some(OrLegacy(Get(w.disk.visible, c))))
      && (!ok ==> LiveTarget(w1, c) == LiveTarget(w, c))
      && (Get(w1.disk.visible, c) == Get(w.disk.visible, c) || Get(w1.disk.visible, c) == Some(r))
      && (Get(w1.disk.durable, c) == Get(w.disk.durable, c) || Get(w1.disk.durable, c) == Some(r))
      && (ok ==> Get(w1.disk.visible, c) == Some(r) && Get(w1.disk.durable, c) == Some(r))
  {
    hide TargetOf;
  }

  lemma PersistNewer(d: Disk, d1: Disk, c: Connection, r: Record, m: nat)
    requires Get(d1.visible, c) == Get(d.visible, c) || Get(d1.visible, c) == Some(r)
    requires r.epoch.Some?
    requires r.epoch.value >= m || (c in d.visible && r.epoch == d.visible[c].epoch
                                    && EffectiveTime(d.visible[c].cache) <= EffectiveTime(r.cache))
    ensures Newer(d, d1, c, m)
  {}

  /** The committed connection itself: each file holds the old record or the new one. */
  lemma PersistHere(g: Ghosts, n: nat, ab: set<Slot>, c: Connection, v: Option<Record>, d: Option<Record>, l: Lane,
      r: Record, v1: Option<Record>, d1: Option<Record>, l1: Lane, ok: bool)
    requires Base(g, n, ab, c, v, d, l) && Sound(g, c, n, r)
    requires forall s :: s in ab ==> !Names(r, s) && r.pendingSlot != Some(s)
    requires (v1 == v || v1 == Some(r)) && (d1 == d || d1 == Some(r)) && (ok ==> v1 == d1 == Some(r))
    requires l1 == l.(fenced := l.fenced || !ok, prior := if ok || l.prior.Some? then l.prior else Some(OrLegacy(v)))
    ensures Base(g, n, ab, c, v1, d1, l1) && Synced(ab, v1, d1, l1)
  {}

  lemma PersistedConn(g: Ghosts, w: World, c: Connection)
    requires BaseAt(g, w, c) && w.lanes[c].lease.None?
    requires Synced(w.abandoned, Get(w.disk.visible, c), Get(w.disk.durable, c), w.lanes[c])
    ensures ConnAt(g, w, c)
  {}

  // ---- Answering one request ----

  /** What every internal step on connection `c` guarantees. */
  ghost predicate Stepped(g: Ghosts, w: World, w1: World, c: Connection, keepsTarget: bool) {
    && Safe(g, w1) && Onward(w, w1) && SameElsewhere(w, w1, c) && Newer(w.disk, w1.disk, c, w.ids)
    && (keepsTarget ==> LiveTarget(w1, c) == LiveTarget(w, c))
    && w1.abandoned == w.abandoned
    && (forall x :: x != c ==> w1.lanes[x] == w.lanes[x])
  }

  lemma SteppedTwice(g: Ghosts, w: World, w1: World, w2: World, c: Connection, first: bool, second: bool)
    requires Stepped(g, w, w1, c, first) && Stepped(g, w1, w2, c, second)
    ensures Stepped(g, w, w2, c, first && second)
  {
    hide LiveTarget, Cut, Safe, FiledOrKept;
    SameElsewhereTwice(w, w1, w2, c);
  }

  lemma SameElsewhereTwice(w: World, w1: World, w2: World, c: Connection)
    requires SameElsewhere(w, w1, c) && SameElsewhere(w1, w2, c)
    ensures SameElsewhere(w, w2, c)
  {
    hide LiveTarget;
    forall d | d != c ensures FiledOrKept(w.disk, w2.disk, d) {
      assert FiledOrKept(w.disk, w1.disk, d) && FiledOrKept(w1.disk, w2.disk, d);
    }
  }

  /** Queues, answers and counters play no part in safety. */
  lemma SameConn(g: Ghosts, w: World, w1: World, c: Connection)
    requires Safe(g, w) && w1.disk == w.disk && w1.ids == w.ids && w1.abandoned == w.abandoned
    requires forall x :: x != c ==> w1.lanes[x] == w.lanes[x]
    requires var a, b := w.lanes[c], w1.lanes[c];
      a.lease == b.lease && a.fenced == b.fenced && a.prior == b.prior && a.fetch.lease == b.fetch.lease
    ensures Stepped(g, w, w1, c, true)
  {
    hide Conn, TargetOf;
    forall x ensures ConnAt(g, w1, x) {
      assert ConnAt(g, w, x);
      SameParts(g, w.ids, w.abandoned, x, Get(w.disk.visible, x), Get(w.disk.durable, x), w.lanes[x], w1.lanes[x]);
    }
  }

  lemma SameParts(g: Ghosts, n: nat, ab: set<Slot>, c: Connection, v: Option<Record>, d: Option<Record>, a: Lane,
      b: Lane)
    requires Conn(g, n, ab, c, v, d, a)
    requires a.lease == b.lease && a.fenced == b.fenced && a.prior == b.prior && a.fetch.lease == b.fetch.lease
    ensures Conn(g, n, ab, c, v, d, b)
  {
    hide Sound, Names, Guarded, HeldMode, SoundOrLegacy, Owned, Core;
  }

  lemma GuardedByCore(a: Record, b: Record, c: Connection, s: Slot)
    requires Core(a) == Core(b)
    ensures Guarded(a, c, s) == Guarded(b, c, s) && Names(a, s) == Names(b, s)
  {
    hide LegacyKey;
    CoreFields(a, b);
    hide Core;
    BackupByCore(a, b, c);
    hide ValidBackup;
  }

  lemma CoreFields(a: Record, b: Record)
    requires Core(a) == Core(b)
    ensures a.mode == b.mode && a.slot == b.slot && a.previousSlot == b.previousSlot && a.previousMode == b.previousMode
    ensures a.previousBackupKey == b.previousBackupKey && a.backupKey == b.backupKey && a.backupSlot == b.backupSlot
    ensures a.backupGeneration == b.backupGeneration && a.backupRevision == b.backupRevision
    ensures a.mode == Some(Active) ==> a.generation == b.generation && a.revision == b.revision
  {
    var p, q := Core(a), Core(b);
    assert p.mode == a.mode && q.mode == b.mode;
    assert p.slot == a.slot && p.backupKey == a.backupKey;
  }

  lemma BackupByCore(a: Record, b: Record, c: Connection)
    requires Core(a) == Core(b)
    ensures ValidBackup(a, c) == ValidBackup(b, c)
  {
    CoreFields(a, b);
    hide Core, LegacyKey;
  }

  /** Exactly the retired slots nobody may need again are offered. */
  lemma {:induction false} CleanupOffers(slots: seq<Slot>, r: Record, c: Connection, writeSlot: Option<Slot>,
      ab: set<Slot>, s: Slot)
    ensures s in Cleanup(slots, r, c, writeSlot, ab) <==>
            s in slots && !Guarded(r, c, s) && writeSlot != Some(s) && s !in ab
  {
    hide Guarded;
    if slots != [] { CleanupOffers(slots[1..], r, c, writeSlot, ab, s); }
  }

  lemma GrantKeeps(g: Ghosts, w: World, c: Connection, p: Request, ticket: Id, slot: Option<Slot>, r: Record)
    requires Safe(g, w) && w.lanes[c].lease.None? && !w.lanes[c].fenced
    requires r == OrLegacy(Get(w.disk.visible, c))
    requires ticket < w.ids && ticket !in g.wrote
    requires slot.Some? ==> Candidate(c, w.ids, w.abandoned, slot.value, Get(w.disk.visible, c), Get(w.disk.durable, c), w.lanes[c])
    requires p.action == Delete ==> slot.None? && forall s :: !Guarded(r, c, s)
    requires HeldMode(Lease(p.owner, ticket, p.action, p.fetchTicket, slot, slot, {}), false, Get(w.disk.visible, c))
    ensures Safe(g, Grant(w, c, p, ticket, slot, r)) && SameElsewhere(w, Grant(w, c, p, ticket, slot, r), c)
    ensures LiveTarget(Grant(w, c, p, ticket, slot, r), c) == LiveTarget(w, c)
  {
    hide Conn, TargetOf, Cleanup, ViewOf, HeldMode, Candidate, Elements, Guarded;
    var w1 := Grant(w, c, p, ticket, slot, r);
    assert ConnAt(g, w, c);
    GrantConn(g, w, c, p, ticket, slot, r, w1.lanes[c]);
    forall x ensures ConnAt(g, w1, x) {
      assert ConnAt(g, w, x);
    }
  }

  lemma GrantConn(g: Ghosts, w: World, c: Connection, p: Request, ticket: Id, slot: Option<Slot>, r: Record, l: Lane)
    requires ConnAt(g, w, c) && w.lanes[c].lease.None? && !w.lanes[c].fenced
    requires r == OrLegacy(Get(w.disk.visible, c))
    requires ticket < w.ids && ticket !in g.wrote
    requires slot.Some? ==> Candidate(c, w.ids, w.abandoned, slot.value, Get(w.disk.visible, c), Get(w.disk.durable, c), w.lanes[c])
    requires p.action == Delete ==> slot.None? && forall s :: !Guarded(r, c, s)
    requires HeldMode(Lease(p.owner, ticket, p.action, p.fetchTicket, slot, slot, {}), false, Get(w.disk.visible, c))
    requires l == Grant(w, c, p, ticket, slot, r).lanes[c]
    ensures Conn(g, w.ids, w.abandoned, c, Get(w.disk.visible, c), Get(w.disk.durable, c), l)
  {
    hide Sound, Names, Guarded, Cleanup, ViewOf, Owned, Elements, Core;
    var v, d := Get(w.disk.visible, c), Get(w.disk.durable, c);
    forall s | s in l.lease.value.deletable
      ensures Owned(c, w.ids, s) && Unguarded(c, s, v, d, l) && slot != Some(s)
    {
      GrantOffer(g, w, c, p, slot, r, s);
      GuardedByCore(OrLegacy(v), OrLegacy(d), c, s);
    }
  }

  /** One slot a grant lets its holder delete. */
  lemma GrantOffer(g: Ghosts, w: World, c: Connection, p: Request, slot: Option<Slot>, r: Record, s: Slot)
    requires SoundOrLegacy(g, c, w.ids, r)
    requires p.action == Delete ==> slot.None? && !Guarded(r, c, s)
    requires s in if p.action == Delete then Elements(r.retired) + {LegacyKey(c)}
                  else Elements(Cleanup(r.retired, r, c, slot, w.abandoned))
    ensures Owned(c, w.ids, s) && !Guarded(r, c, s) && slot != Some(s)
  {
    hide Guarded, Cleanup, Names;
    CleanupOffers(r.retired, r, c, slot, w.abandoned, s);
  }

  lemma ReplyKeeps(g: Ghosts, w: World, c: Connection, a: Answer)
    requires Safe(g, w)
    ensures Stepped(g, w, Reply(w, c, a), c, true)
  {
    hide Safe, Stepped;
    SameConn(g, w, Reply(w, c, a), c);
  }

  lemma MintSafe(g: Ghosts, w: World, m: nat)
    requires Safe(g, w) && w.ids <= m
    ensures Safe(g, w.(ids := m)) && Onward(w, w.(ids := m)) && forall x :: LiveTarget(w.(ids := m), x) == LiveTarget(w, x)
  {
    hide Conn, TargetOf;
    forall d ensures ConnAt(g, w.(ids := m), d) {
      assert ConnAt(g, w, d);
      ConnLater(g, w.ids, m, w.abandoned, d, Get(w.disk.visible, d), Get(w.disk.durable, d), w.lanes[d]);
    }
  }

  /** What is needed of the record an attempt works on. */
  lemma GroundSound(g: Ghosts, w: World, c: Connection)
    requires ConnAt(g, w, c) && Ground(w, c).Some?
    ensures var r := Ground(w, c).value;
      && SoundOrLegacy(g, c, w.ids, r)
      && (forall s :: s in w.abandoned ==> !Names(r, s))
      && TargetOf(r) == LiveTarget(w, c)
      && (!w.lanes[c].fenced ==> r == OrLegacy(Get(w.disk.visible, c)))
      && (!w.lanes[c].fenced ==> forall s :: s in w.abandoned ==> r.pendingSlot != Some(s))
      && (r != LegacyState && !w.lanes[c].fenced ==> c in w.disk.visible && r == w.disk.visible[c])
  {
    hide TargetOf, Sound;
  }

  lemma SafeParts(g: Ghosts, w: World, c: Connection)
    requires Safe(g, w)
    ensures ConnAt(g, w, c) && BaseAt(g, w, c) && AllBut(g, w, c)
  {
    hide Base, Synced, Held;
    assert ConnAt(g, w, c);
  }

  /** The same, from a safe state and with the ids the record took already minted. */
  lemma PersistSafe(g: Ghosts, w: World, c: Connection, r: Record, m: nat)
    requires Safe(g, w) && w.lanes[c].lease.None? && Sound(g, c, w.ids, r) && m <= w.ids
    requires forall s :: s in w.abandoned ==> !Names(r, s) && r.pendingSlot != Some(s)
    requires r.epoch.value >= m || (c in w.disk.visible && r.epoch == w.disk.visible[c].epoch && r.cache == w.disk.visible[c].cache)
    ensures var (w1, ok) := Persist(w, c, r);
      && Safe(g, w1)
      && w1.ids == w.ids && w1.abandoned == w.abandoned
      && (forall x :: x != c ==> w1.lanes[x] == w.lanes[x])
      && w1.lanes[c] == w.lanes[c].(fenced := w1.lanes[c].fenced, prior := w1.lanes[c].prior)
      && (ok == NextFault(w.disk).Saved?)
      && (ok ==> Get(w1.disk.visible, c) == Some(r) && Get(w1.disk.durable, c) == Some(r) && w1.lanes[c] == w.lanes[c])
      && (!ok ==> w1.lanes[c].fenced && LiveTarget(w1, c) == LiveTarget(w, c))
      && SameElsewhere(w, w1, c) && Newer(w.disk, w1.disk, c, m)
      && (forall x, n: nat :: n <= m && Cut(w, x, n) ==> Cut(w1, x, n))
  {
    hide Safe, ConnAt, BaseAt, AllBut, Persist, Sound, Names, Cut, LiveTarget;
    SafeParts(g, w, c);
    PersistKeeps(g, w, c, r, m);
  }

  lemma SoundOrLegacyLater(g: Ghosts, c: Connection, n: nat, m: nat, r: Record)
    requires SoundOrLegacy(g, c, n, r) && n <= m
    ensures SoundOrLegacy(g, c, m, r)
  {
    hide Sound;
    if r != LegacyState { SoundLater(g, c, n, m, r); }
  }

  lemma ReconnectPending(r: Record, c: Connection, n: Id)
    ensures var r' := ReconnectRecord(r, c, n);
      r'.mode == Some(Pending) && r'.pendingSlot == Some(Minted(c, n + 3)) && r'.epoch == Some(n + 2) && r'.slot.None?
  {
    hide Remember;
  }

  lemma UnfenceKeeps(g: Ghosts, w: World, c: Connection, r: Record)
    requires Safe(g, w) && w.lanes[c].lease.None?
    requires Get(w.disk.visible, c) == Some(r) && Get(w.disk.durable, c) == Some(r)
    requires forall s :: s in w.abandoned ==> r.pendingSlot != Some(s)
    ensures Safe(g, Unfence(w, c)) && LiveTarget(Unfence(w, c), c) == TargetOf(r) && SameElsewhere(w, Unfence(w, c), c)
  {
    hide Sound, TargetOf, Core, Names;
    forall x ensures ConnAt(g, Unfence(w, c), x) {
      assert ConnAt(g, w, x);
    }
  }

  /** Tickets only ever move to freshly minted ones. */
  lemma OnwardBy(w: World, w1: World, c: Connection)
    requires w.ids <= w1.ids && forall x :: x != c ==> w1.lanes[x] == w.lanes[x]
    requires forall x, n: nat :: n <= w.ids && Cut(w, x, n) ==> Cut(w1, x, n)
    requires w1.lanes[c].lease.Some? ==> w1.lanes[c].lease.value.ticket >= w.ids || w1.lanes[c].lease == w.lanes[c].lease
    requires w1.lanes[c].fetch == w.lanes[c].fetch
    ensures Onward(w, w1)
  {
    hide Cut;
  }

  /** The record a reconnect commits, on top of whatever ground the connection has. */
  lemma ReconnectFacts(g: Ghosts, w: World, c: Connection)
    requires Safe(g, w) && Ground(w, c).Some?
    ensures var r' := ReconnectRecord(Ground(w, c).value, c, w.ids + 1);
      && Sound(g, c, w.ids + 5, r') && TargetOf(r') == LiveTarget(w, c)
      && r'.mode == Some(Pending) && r'.pendingSlot == Some(Minted(c, w.ids + 4)) && r'.epoch == Some(w.ids + 3)
      && (forall s :: s in w.abandoned ==> !Names(r', s) && r'.pendingSlot != Some(s))
  {
    SafeParts(g, w, c);
    GroundSound(g, w, c);
    var r := Ground(w, c).value;
    assert forall s :: s in w.abandoned ==> s.Minted? && s.id < w.ids;
    hide Safe, ConnAt, BaseAt, AllBut, Sound, ReconnectRecord, TargetOf, Names, Ground, SoundOrLegacy, LiveTarget;
    SoundOrLegacyLater(g, c, w.ids, w.ids + 1, r);
    ReconnectSound(g, c, w.ids + 1, r);
    ReconnectPending(r, c, w.ids + 1);
  }

  lemma UnusedTicket(g: Ghosts, w: World)
    requires Safe(g, w)
    ensures w.ids !in g.wrote
  {
    hide ConnAt;
  }

  lemma ReconnectKeeps(g: Ghosts, w: World, c: Connection, p: Request)
    requires Safe(g, w) && w.lanes[c].lease.None? && p.action == Reconnect && Ground(w, c).Some?
    ensures Stepped(g, w, AttemptOn(w.(ids := w.ids + 1), c, p, w.ids, Ground(w, c).value), c, true)
  {
    hide Safe, Sound, ReconnectRecord, Persist, TargetOf, Cut, Guarded, Names, Ground, LiveTarget, Reply,
      Grant, Unfence,
         Candidate, Onward;
    ReconnectFacts(g, w, c);
    UnusedTicket(g, w);
    var r' := ReconnectRecord(Ground(w, c).value, c, w.ids + 1);
    var w0 := w.(ids := w.ids + 5);
    MintSafe(g, w, w.ids + 5);
    PersistSafe(g, w0, c, r', w.ids);
    var (w1, ok) := Persist(w0, c, r');
    if ok {
      UnfencedGrant(g, w1, c, p, w.ids, r');
      PersistSteps(w, w0, w1, Grant(Unfence(w1, c), c, p, w.ids, r'.pendingSlot, r'), c);
    } else {
      ReplyKeeps(g, w1, c, Failed(p.number));
      ReplyShape(w1, c, Failed(p.number));
      PersistSteps(w, w0, w1, Reply(w1, c, Failed(p.number)), c);
    }
  }

  lemma ReplyShape(w: World, c: Connection, a: Answer)
    ensures var w1 := Reply(w, c, a);
      && w1.disk == w.disk && w1.ids == w.ids && w1.abandoned == w.abandoned
      && (forall x :: x != c ==> w1.lanes[x] == w.lanes[x])
      && w1.lanes[c] == w.lanes[c].(answers := w.lanes[c].answers + [a])
      && (forall x :: LiveTarget(w1, x) == LiveTarget(w, x))
  {
    hide TargetOf;
  }

  lemma GrantShape(w: World, c: Connection, p: Request, ticket: Id, slot: Option<Slot>, r: Record)
    ensures var w1 := Grant(w, c, p, ticket, slot, r);
      && w1.disk == w.disk && w1.ids == w.ids && w1.abandoned == w.abandoned
      && (forall x :: x != c ==> w1.lanes[x] == w.lanes[x])
      && w1.lanes[c].lease.Some? && w1.lanes[c].lease.value.ticket == ticket && w1.lanes[c].lease.value.owner == p.owner
      && w1.lanes[c].queue == w.lanes[c].queue && w1.lanes[c].arrived == w.lanes[c].arrived
      && w1.lanes[c].dropped == w.lanes[c].dropped && w1.lanes[c].fetch == w.lanes[c].fetch
      && |w1.lanes[c].answers| == |w.lanes[c].answers| + 1 && w1.lanes[c].answers[..|w.lanes[c].answers|] == w.lanes[c].answers
      && w1.lanes[c].answers[|w.lanes[c].answers|].request == p.number
      && (forall x :: LiveTarget(w1, x) == LiveTarget(w, x))
  {
    hide TargetOf, Cleanup, ViewOf, Elements;
  }

  lemma UnfencedGrant(g: Ghosts, w1: World, c: Connection, p: Request, ticket: Id, r: Record)
    requires Safe(g, w1) && w1.lanes[c].lease.None? && p.action == Reconnect
    requires Get(w1.disk.visible, c) == Some(r) && Get(w1.disk.durable, c) == Some(r)
    requires Sound(g, c, w1.ids, r) && r.mode == Some(Pending) && r.pendingSlot.Some?
    requires forall s :: s in w1.abandoned ==> r.pendingSlot != Some(s)
    requires ticket < w1.ids && ticket !in g.wrote
    ensures var w2 := Grant(Unfence(w1, c), c, p, ticket, r.pendingSlot, r);
      && Safe(g, w2) && SameElsewhere(w1, w2, c) && LiveTarget(w2, c) == TargetOf(r)
      && w2.disk == w1.disk && w2.ids == w1.ids && w2.abandoned == w1.abandoned
      && (forall x :: x != c ==> w2.lanes[x] == w1.lanes[x])
      && w2.lanes[c].lease.Some? && w2.lanes[c].lease.value.ticket == ticket && w2.lanes[c].fetch == w1.lanes[c].fetch
  {
    hide Safe, Sound, TargetOf, Guarded, Names, LiveTarget, Grant, Candidate;
    UnfenceKeeps(g, w1, c, r);
    var w2 := Unfence(w1, c);
    FreshCandidate(g, c, w1.ids, w1.abandoned, r, w2.lanes[c]);
    GrantKeeps(g, w2, c, p, ticket, r.pendingSlot, r);
    GrantShape(w2, c, p, ticket, r.pendingSlot, r);
  }

  lemma PersistSteps(w: World, w0: World, w1: World, w2: World, c: Connection)
    requires w0 == w.(ids := w0.ids) && w.ids <= w0.ids && w1.ids == w0.ids && w2.ids == w1.ids
    requires w2.disk == w1.disk && w.lanes[c].lease.None?
    requires forall x :: x != c ==> w2.lanes[x] == w.lanes[x]
    requires w2.lanes[c].lease.Some? ==> w2.lanes[c].lease.value.ticket == w.ids
    requires w2.lanes[c].fetch == w.lanes[c].fetch
    requires forall x, n: nat :: n <= w.ids && Cut(w0, x, n) ==> Cut(w1, x, n)
    ensures Onward(w, w2)
  {
    forall x, n: nat | n <= w.ids && Cut(w, x, n) ensures Cut(w2, x, n) { assert Cut(w0, x, n); assert Cut(w1, x, n); }
    OnwardBy(w, w2, c);
  }

  lemma FreshCandidate(g: Ghosts, c: Connection, n: nat, ab: set<Slot>, r: Record, l: Lane)
    requires Sound(g, c, n, r) && r.mode == Some(Pending) && r.pendingSlot.Some? && l.prior.None?
    requires r.pendingSlot.value !in ab
    ensures Candidate(c, n, ab, r.pendingSlot.value, Some(r), Some(r), l)
  {}

  lemma DeleteFacts(g: Ghosts, w: World, c: Connection)
    requires Safe(g, w) && Ground(w, c).Some?
    ensures var r' := DeleteRecord(Ground(w, c).value, c, w.ids + 1);
      && Sound(g, c, w.ids + 4, r') && r'.mode == Some(Deleted) && r'.epoch == Some(w.ids + 3) && r'.pendingSlot.None?
      && (forall s :: !Guarded(r', c, s) && !Names(r', s))
  {
    SafeParts(g, w, c);
    GroundSound(g, w, c);
    var r := Ground(w, c).value;
    hide Safe, ConnAt, BaseAt, AllBut, Sound, TargetOf, Ground, SoundOrLegacy, LiveTarget, Retire;
    SoundOrLegacyLater(g, c, w.ids, w.ids + 1, r);
    DeleteSound(g, c, w.ids + 1, r);
  }

  lemma DeleteKeeps(g: Ghosts, w: World, c: Connection, p: Request)
    requires Safe(g, w) && w.lanes[c].lease.None? && p.action == Delete && Ground(w, c).Some? && !w.lanes[c].fenced
    ensures Stepped(g, w, AttemptOn(w.(ids := w.ids + 1), c, p, w.ids, Ground(w, c).value), c, false)
  {
    hide Safe, Sound, DeleteRecord, Persist, TargetOf, Cut, Guarded, Names, Ground, LiveTarget, Reply, Grant,
         Candidate, Onward;
    DeleteFacts(g, w, c);
    UnusedTicket(g, w);
    var r' := DeleteRecord(Ground(w, c).value, c, w.ids + 1);
    var w0 := w.(ids := w.ids + 4);
    MintSafe(g, w, w.ids + 4);
    PersistSafe(g, w0, c, r', w.ids);
    var (w1, ok) := Persist(w0, c, r');
    if ok {
      GrantKeeps(g, w1, c, p, w.ids, None, r');
      GrantShape(w1, c, p, w.ids, None, r');
      PersistSteps(w, w0, w1, Grant(w1, c, p, w.ids, None, r'), c);
    } else {
      ReplyKeeps(g, w1, c, Failed(p.number));
      ReplyShape(w1, c, Failed(p.number));
      PersistSteps(w, w0, w1, Reply(w1, c, Failed(p.number)), c);
    }
  }

  lemma RefreshFacts(g: Ghosts, w: World, c: Connection)
    requires Safe(g, w) && !w.lanes[c].fenced && Ground(w, c).Some? && Ground(w, c).value.mode == Some(Active)
    ensures var r, r' := Ground(w, c).value, RefreshRecord(Ground(w, c).value, c, w.ids + 1);
      && Sound(g, c, w.ids + 2, r') && r'.mode == Some(Active) && TargetOf(r') == LiveTarget(w, c)
      && c in w.disk.visible && r'.epoch == w.disk.visible[c].epoch && r'.cache == w.disk.visible[c].cache
      && (forall s :: s in w.abandoned ==> !Names(r', s) && r'.pendingSlot != Some(s))
      && Minted(c, w.ids + 1) !in w.abandoned && !Names(r', Minted(c, w.ids + 1))
      && w.lanes[c].prior.None?
  {
    SafeParts(g, w, c);
    GroundSound(g, w, c);
    var r := Ground(w, c).value;
    assert !Names(r, Minted(c, w.ids + 1));
    SoundLater(g, c, w.ids, w.ids + 2, r);
    RetireSound(g, c, w.ids + 2, r, Some(Minted(c, w.ids + 1)));
    hide Sound, TargetOf, Conn, Base, Held, Ground;
  }

  lemma RefreshKeeps(g: Ghosts, w: World, c: Connection, p: Request)
    requires Safe(g, w) && w.lanes[c].lease.None? && p.action == Refresh && Ground(w, c).Some? && !w.lanes[c].fenced
    requires Ground(w, c).value.mode == Some(Active)
    ensures Stepped(g, w, AttemptOn(w.(ids := w.ids + 1), c, p, w.ids, Ground(w, c).value), c, true)
  {
    hide Safe, Sound, RefreshRecord, Persist, TargetOf, Cut, Guarded, Names, Ground, Reply, Grant, Onward;
    RefreshFacts(g, w, c);
    UnusedTicket(g, w);
    var s := Some(Minted(c, w.ids + 1));
    var r' := RefreshRecord(Ground(w, c).value, c, w.ids + 1);
    var w0 := w.(ids := w.ids + 2);
    MintSafe(g, w, w.ids + 2);
    PersistSafe(g, w0, c, r', w.ids);
    var (w1, ok) := Persist(w0, c, r');
    if ok {
      GrantKeeps(g, w1, c, p, w.ids, s, r');
      GrantShape(w1, c, p, w.ids, s, r');
      PersistSteps(w, w0, w1, Grant(w1, c, p, w.ids, s, r'), c);
    } else {
      ReplyKeeps(g, w1, c, Failed(p.number));
      ReplyShape(w1, c, Failed(p.number));
      PersistSteps(w, w0, w1, Reply(w1, c, Failed(p.number)), c);
    }
  }

  /** Grants that commit nothing: the record is granted as it stands. */
  lemma PlainFacts(g: Ghosts, w: World, c: Connection, slot: Option<Slot>)
    requires Safe(g, w) && !w.lanes[c].fenced && Ground(w, c).Some?
    requires slot.None? || (Ground(w, c).value.mode == Some(Pending) && slot == Ground(w, c).value.pendingSlot)
    ensures Ground(w, c).value == OrLegacy(Get(w.disk.visible, c))
    ensures slot.Some? ==> Candidate(c, w.ids + 1, w.abandoned, slot.value, Get(w.disk.visible, c), Get(w.disk.durable, c), w.lanes[c])
    ensures slot.Some? ==> c in w.disk.visible
  {
    SafeParts(g, w, c);
    GroundSound(g, w, c);
    if slot.Some? {
      assert Sound(g, c, w.ids, Ground(w, c).value);
      hide Guarded, Core, TargetOf;
      GuardedByCore(OrLegacy(Get(w.disk.visible, c)), OrLegacy(Get(w.disk.durable, c)), c, slot.value);
    }
  }

  lemma PlainKeeps(g: Ghosts, w: World, c: Connection, p: Request, slot: Option<Slot>)
    requires Safe(g, w) && w.lanes[c].lease.None? && Ground(w, c).Some? && !w.lanes[c].fenced
    requires (p.action == Read && slot.None?)
          || ((p.action == Complete || p.action == Cancel) && Ground(w, c).value.mode == Some(Pending)
              && slot == Ground(w, c).value.pendingSlot && c in w.disk.visible)
    ensures Stepped(g, w, Grant(w.(ids := w.ids + 1), c, p, w.ids, slot, Ground(w, c).value), c, true)
  {
    hide Safe, Sound, TargetOf, Cut, Guarded, Names, Ground, Grant, Onward, Candidate, LiveTarget;
    PlainFacts(g, w, c, slot);
    UnusedTicket(g, w);
    var w0 := w.(ids := w.ids + 1);
    MintSafe(g, w, w.ids + 1);
    GrantKeeps(g, w0, c, p, w.ids, slot, Ground(w, c).value);
    GrantShape(w0, c, p, w.ids, slot, Ground(w, c).value);
    PersistSteps(w, w0, w0, Grant(w0, c, p, w.ids, slot, Ground(w, c).value), c);
  }

  /** A refusal or a decline after the ticket was minted. */
  lemma MintedReplyKeeps(g: Ghosts, w: World, c: Connection, a: Answer)
    requires Safe(g, w)
    ensures Stepped(g, w, Reply(w.(ids := w.ids + 1), c, a), c, true)
  {
    hide Safe, LiveTarget, Reply, Cut;
    MintSafe(g, w, w.ids + 1);
    ReplyKeeps(g, w.(ids := w.ids + 1), c, a);
    ReplyShape(w.(ids := w.ids + 1), c, a);
  }

  /** One request answered, whatever the answer. */
  lemma AttemptKeeps(g: Ghosts, w: World, c: Connection, p: Request)
    requires Safe(g, w) && w.lanes[c].lease.None?
    ensures Stepped(g, w, Attempt(w, c, p), c, p.action != Delete)
  {
    hide Safe, Stepped, Ground, Grant, Reply, Persist, ReconnectRecord, DeleteRecord, RefreshRecord;
    if Barred(w, c, p) || Ground(w, c).None? {
      ReplyKeeps(g, w, c, Failed(p.number));
      StillStepped(g, w, Reply(w, c, Failed(p.number)), c, p.action != Delete);
    } else {
      var r := Ground(w, c).value;
      if p.expected.Some? && !Matches(r, p) {
        ReplyKeeps(g, w, c, Declined(p.number));
        StillStepped(g, w, Reply(w, c, Declined(p.number)), c, p.action != Delete);
      } else {
        match p.action {
          case Reconnect => ReconnectKeeps(g, w, c, p);
          case Delete => DeleteKeeps(g, w, c, p);
          case Refresh =>
            if r.mode == Some(Active) { RefreshKeeps(g, w, c, p); } else { MintedReplyKeeps(g, w, c, Failed(p.number)); }
          case Read => PlainKeeps(g, w, c, p, None);
          case UnknownAction => MintedReplyKeeps(g, w, c, Failed(p.number));
          case _ =>
            if Matches(r, p) {
              PlainFacts(g, w, c, r.pendingSlot);
              PlainKeeps(g, w, c, p, r.pendingSlot);
            } else {
              MintedReplyKeeps(g, w, c, Failed(p.number));
            }
        }
      }
    }
  }

  lemma StillStepped(g: Ghosts, w: World, w1: World, c: Connection, keeps: bool)
    requires Stepped(g, w, w1, c, true)
    ensures Stepped(g, w, w1, c, keeps)
  {
    hide Safe, Onward, SameElsewhere, LiveTarget;
  }

  // ---- The queue ----

  predicate NoDeletes(q: seq<Request>) { forall i :: 0 <= i < |q| ==> q[i].action != Delete }

  lemma NothingStepped(g: Ghosts, w: World, c: Connection, keeps: bool)
    requires Safe(g, w)
    ensures Stepped(g, w, w, c, keeps)
  {}

  lemma {:induction false} NextKeeps(g: Ghosts, w: World, c: Connection)
    requires Safe(g, w) && w.lanes[c].lease.None?
    ensures Stepped(g, w, Next(w, c), c, NoDeletes(w.lanes[c].queue))
    decreases |w.lanes[c].queue|, 0
  {
    hide Safe, LiveTarget, Onward, SameElsewhere, Attempt;
    var q := w.lanes[c].queue;
    if q == [] {
      NothingStepped(g, w, c, NoDeletes(q));
    } else {
      var w1 := Put(w, c, w.lanes[c].(queue := q[1..]));
      SameConn(g, w, w1, c);
      StartKeeps(g, w1, c, q[0]);
      SteppedTwice(g, w, w1, Start(w1, c, q[0]), c, true, q[0].action != Delete && NoDeletes(q[1..]));
    }
  }

  lemma {:induction false} StartKeeps(g: Ghosts, w: World, c: Connection, p: Request)
    requires Safe(g, w) && w.lanes[c].lease.None?
    ensures Stepped(g, w, Start(w, c, p), c, p.action != Delete && NoDeletes(w.lanes[c].queue))
    decreases |w.lanes[c].queue|, 1
  {
    hide Safe, LiveTarget, Onward, SameElsewhere, Attempt, Next;
    AttemptKeeps(g, w, c, p);
    AttemptKeepsQueue(w, c, p);
    var w1 := Attempt(w, c, p);
    if w1.lanes[c].lease.None? {
      NextKeeps(g, w1, c);
      SteppedTwice(g, w, w1, Next(w1, c), c, p.action != Delete, NoDeletes(w1.lanes[c].queue));
    } else {
      NothingStepped(g, w1, c, true);
      SteppedTwice(g, w, w1, w1, c, p.action != Delete, true);
    }
  }
}
