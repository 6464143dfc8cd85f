/** Which written secrets are remembered: a slot that every record lists for cleanup stays listed
    until an acknowledgement drops it, and exactly when a slot handed out for writing is listed. */
module LeaseMemory {
  import opened Wrappers
  import opened CredentialRecords
  import opened LeaseWorld
  import opened Safety
  import opened LeaseSteps
  import opened LeaseCalls
  import opened LeaseDetach
  import opened LeaseQueue
  import opened LeaseRuns
  import opened LeaseOffers

  predicate Has(o: Option<Record>, s: Slot) { o.Some? && s in o.value.retired }

  /** The visible record, the durable one and the one a recovery returns to all list `s`. */
  predicate Listed(w: World, c: Connection, s: Slot) {
    ListedBy(Get(w.disk.visible, c), Get(w.disk.durable, c), w.lanes[c].prior, s)
  }

  predicate ListedBy(visible: Option<Record>, durable: Option<Record>, prior: Option<Record>, s: Slot) {
    Has(visible, s) && Has(durable, s) && (prior.Some? ==> s in prior.value.retired)
  }

  predicate PendingListed(o: Option<Record>, s: Slot) { o.Some? && o.value.pendingSlot == Some(s) ==> s in o.value.retired }

  /** A candidate slot is listed by the record that names it. */
  predicate CandidateListed(w: World, c: Connection, s: Slot) {
    PendingListed(Get(w.disk.visible, c), s) && PendingListed(Get(w.disk.durable, c), s)
  }

  /** Its holder may write `s`, and no migration commit was refused under the lease. */
  predicate Writable(w: World, c: Connection, s: Slot) {
    w.lanes[c].lease.Some? && w.lanes[c].lease.value.writable == Some(s) && !w.lanes[c].fenced
  }

  /** `owed`: the slot has been written. */
  predicate Tracked(w: World, c: Connection, s: Slot, owed: bool) {
    CandidateListed(w, c, s) && (owed || Writable(w, c, s) ==> Listed(w, c, s))
  }

  // ---- Records ----

  lemma RetireLists(r: Record, x: Option<Slot>, s: Slot)
    ensures s in r.retired || x == Some(s) <==> s in Retire(r, x).retired
  {}

  lemma ReconnectKeeps(r: Record, c: Connection, n: Id, s: Slot)
    ensures s in r.retired ==> s in ReconnectRecord(r, c, n).retired
    ensures Minted(c, n + 3) in ReconnectRecord(r, c, n).retired && ReconnectRecord(r, c, n).pendingSlot == Some(Minted(c, n + 3))
  {
    hide LegacyKey, Retire;
    var kept := Remember(r, c);
    assert kept.retired == r.retired;
    hide Remember;
    RetireLists(kept, kept.slot, s);
    RetireLists(Retire(kept, kept.slot), Some(LegacyKey(c)), s);
    var two := Retire(Retire(kept, kept.slot), Some(LegacyKey(c)));
    var cleared := RemoveBackup(Barrier(two, Pending, n).(slot := None, identity := None));
    RetireLists(cleared, Some(Minted(c, n + 3)), s);
    RetireLists(cleared, Some(Minted(c, n + 3)), Minted(c, n + 3));
  }

  lemma DeleteKeepsListed(r: Record, c: Connection, n: Id, s: Slot)
    requires s in r.retired
    ensures s in DeleteRecord(r, c, n).retired
  {
    hide LegacyKey, Retire;
    RetireLists(r, r.slot, s);
    var keys := Retire(Retire(r, r.slot), Some(LegacyKey(c)));
    RetireLists(Retire(r, r.slot), Some(LegacyKey(c)), s);
    RetireLists(keys, Some(CompanionConfig), s);
    RetireLists(keys, Some(PastedSecret(AnthropicPlan)), s);
  }

  lemma ActivateListed(r: Record, c: Connection, action: Action, slot: Slot, identity: string, n: Id, s: Slot)
    ensures s in r.retired ==> s in ActivateRecord(r, c, action, slot, identity, n).retired
    ensures ActivateRecord(r, c, action, slot, identity, n).pendingSlot.None?
  {
    hide LegacyKey, Retire;
    var migrated := if r.mode == Some(Migration) then r.(backupKey := Some(LegacyKey(c))) else r;
    RetireLists(migrated, migrated.backupKey, s);
    var owned := if action == Complete || action == Refresh then RemoveBackup(Retire(migrated, migrated.backupKey)) else migrated;
    RetireLists(owned, owned.slot, s);
  }

  // ---- Commits ----

  /** What a commit of `r'` needs so that nothing listed is lost. */
  predicate Carries(w: World, c: Connection, r': Record, s: Slot) {
    (Listed(w, c, s) ==> s in r'.retired) && PendingListed(Some(r'), s)
  }

  lemma CommitListed(d: Disk, e: Disk, x: Connection, r': Record, c: Connection, s: Slot)
    requires e == Commit(d, d.visible[x := r']).0
    ensures x == c ==> Get(e.visible, c) == Get(d.visible, c) || Get(e.visible, c) == Some(r')
    ensures x == c ==> Get(e.durable, c) == Get(d.durable, c) || Get(e.durable, c) == Some(r')
    ensures x != c ==> Get(e.visible, c) == Get(d.visible, c)
    ensures x != c ==> Get(e.durable, c) == Get(d.durable, c) || Get(e.durable, c) == Get(d.visible, c)
  {
    CommitShape(d, x, r');
  }

  lemma KnownIs(v: Store, c: Connection)
    ensures Get(v, c).Some? ==> Known(v, c) == Get(v, c).value
  {}

  /** A commit on any connection, fencing or not, keeps `s` tracked on its own. */
  lemma CommitTracks(w: World, w1: World, x: Connection, r': Record, c: Connection, s: Slot, owed: bool)
    requires w1.disk == Commit(w.disk, w.disk.visible[x := r']).0
    requires w1.lanes[c].prior == w.lanes[c].prior || w1.lanes[c].prior == Some(Known(w.disk.visible, c))
    requires w1.lanes[c].lease == w.lanes[c].lease && (w.lanes[c].fenced ==> w1.lanes[c].fenced)
    requires Tracked(w, c, s, owed) && (x == c ==> Carries(w, c, r', s))
    ensures Tracked(w1, c, s, owed) && (Listed(w, c, s) ==> Listed(w1, c, s))
  {
    hide Commit, Get, Known, Has, PendingListed, ListedBy;
    CommitListed(w.disk, w1.disk, x, r', c, s);
    KnownIs(w.disk.visible, c);
    var v, d, p := Get(w.disk.visible, c), Get(w.disk.durable, c), w.lanes[c].prior;
    var v1, d1, p1 := Get(w1.disk.visible, c), Get(w1.disk.durable, c), w1.lanes[c].prior;
    var known := Known(w.disk.visible, c);
    if x == c {
      PartsListed(v, d, p, v1, d1, p1, r', s, true, known);
    } else {
      PartsListed(v, d, p, v1, d1, p1, r', s, false, known);
    }
  }

  lemma PartsListed(v: Option<Record>, d: Option<Record>, p: Option<Record>, v1: Option<Record>, d1: Option<Record>,
      p1: Option<Record>, r': Record, s: Slot, here: bool, known: Record)
    requires PendingListed(v, s) && PendingListed(d, s) && (v.Some? ==> known == v.value)
    requires here ==> (v1 == v || v1 == Some(r')) && (d1 == d || d1 == Some(r')) && PendingListed(Some(r'), s)
    requires !here ==> v1 == v && (d1 == d || d1 == v)
    requires p1 == p || p1 == Some(known)
    ensures PendingListed(v1, s) && PendingListed(d1, s)
    ensures ListedBy(v, d, p, s) && (here ==> s in r'.retired) ==> ListedBy(v1, d1, p1, s)
  {}

  lemma PersistTracks(w: World, x: Connection, r': Record, c: Connection, s: Slot, owed: bool)
    requires Tracked(w, c, s, owed) && (x == c ==> Carries(w, c, r', s))
    ensures var (w1, ok) := Persist(w, x, r');
      && Tracked(w1, c, s, owed) && (Listed(w, c, s) ==> Listed(w1, c, s))
      && w1.lanes[c].lease == w.lanes[c].lease
      && (ok && x == c ==> Get(w1.disk.visible, c) == Some(r') && Get(w1.disk.durable, c) == Some(r') && w1.lanes[c] == w.lanes[c])
      && (x != c ==> w1.lanes[c] == w.lanes[c])
  {
    PersistShape(w, x, r');
    var w1 := Persist(w, x, r').0;
    assert Get(w.disk.visible, x).Some? ==> Known(w.disk.visible, x) == Get(w.disk.visible, x).value;
    assert Get(w.disk.visible, x).None? ==> Known(w.disk.visible, x) == LegacyState;
    hide Persist, Commit, Tracked, Carries, LiveTarget, Get, Known;
    CommitTracks(w, w1, x, r', c, s, owed);
  }

  lemma SoftTracks(w: World, x: Connection, r': Record, c: Connection, s: Slot, owed: bool)
    requires Tracked(w, c, s, owed) && (x == c ==> Carries(w, c, r', s))
    ensures Tracked(SoftPersist(w, x, r').0, c, s, owed)
  {
    hide Commit, Tracked, Carries, Get;
    CommitTracks(w, SoftPersist(w, x, r').0, x, r', c, s, owed);
  }

  /** Only the lane's lease, queue, answers or counters moved, and the lease writes no more. */
  lemma LaneTracks(w: World, w1: World, c: Connection, s: Slot, owed: bool)
    requires Tracked(w, c, s, owed) && w1.disk == w.disk && (w1.lanes[c].prior == w.lanes[c].prior || w1.lanes[c].prior.None?)
    requires (w1.lanes[c].lease == w.lanes[c].lease && w1.lanes[c].fenced == w.lanes[c].fenced) || w1.lanes[c].lease.None?
    ensures Tracked(w1, c, s, owed) && (Listed(w, c, s) ==> Listed(w1, c, s))
  {
    hide Has;
  }

  /** A grant whose write slot is listed. */
  lemma GrantTracks(w: World, x: Connection, p: Request, ticket: Id, slot: Option<Slot>, r: Record, c: Connection,
      s: Slot, owed: bool)
    requires Tracked(w, c, s, owed) && (x == c && slot == Some(s) ==> Listed(w, c, s))
    ensures Tracked(Grant(w, x, p, ticket, slot, r), c, s, owed)
  {
    hide Cleanup, ViewOf, Elements, LegacyKey, Has;
  }

  // ---- Answering ----

  lemma AttemptOnTracks(w: World, x: Connection, p: Request, ticket: Id, r: Record, c: Connection, s: Slot, owed: bool)
    requires Tracked(w, c, s, owed) && w.lanes[x].lease.None?
    requires x == c ==> (Listed(w, c, s) ==> s in r.retired)
    requires p.action == Refresh ==> w.lanes[x].prior.None?
    requires x == c && (p.action == Complete || p.action == Cancel) && r.pendingSlot == Some(s) ==> Listed(w, c, s)
    requires x == c && (p.action == Delete || p.action == Refresh) ==> PendingListed(Some(r), s)
    ensures Tracked(AttemptOn(w, x, p, ticket, r), c, s, owed)
  {
    hide Persist, Grant, Tracked, Listed, ReconnectRecord, DeleteRecord, RefreshRecord, Matches, Has, Reply, Unfence;
    match p.action {
      case Reconnect => ReconnectTracks(w, x, p, ticket, r, c, s, owed);
      case Complete => GrantTracks(w, x, p, ticket, r.pendingSlot, r, c, s, owed); ReplyTracks(w, x, Failed(p.number), c, s, owed);
      case Cancel => GrantTracks(w, x, p, ticket, r.pendingSlot, r, c, s, owed); ReplyTracks(w, x, Failed(p.number), c, s, owed);
      case Delete =>
        DeleteTracks(w, x, r, c, s, owed);
        var w1 := Persist(w.(ids := w.ids + 3), x, DeleteRecord(r, x, w.ids)).0;
        GrantTracks(w1, x, p, ticket, None, DeleteRecord(r, x, w.ids), c, s, owed);
        ReplyTracks(w1, x, Failed(p.number), c, s, owed);
      case Refresh =>
        ReplyTracks(w, x, Failed(p.number), c, s, owed);
        RefreshTracks(w, x, p, ticket, r, c, s, owed);
      case Read => GrantTracks(w, x, p, ticket, None, r, c, s, owed);
      case UnknownAction => ReplyTracks(w, x, Failed(p.number), c, s, owed);
    }
  }

  lemma ReplyTracks(w: World, x: Connection, a: Answer, c: Connection, s: Slot, owed: bool)
    requires Tracked(w, c, s, owed)
    ensures Tracked(Reply(w, x, a), c, s, owed)
  {
    hide Tracked, Listed;
    LaneTracks(w, Reply(w, x, a), c, s, owed);
  }

  lemma MintTracks(w: World, n: nat, c: Connection, s: Slot, owed: bool)
    requires Tracked(w, c, s, owed)
    ensures Tracked(w.(ids := n), c, s, owed) && (Listed(w.(ids := n), c, s) <==> Listed(w, c, s))
  {}

  lemma ReconnectTracks(w: World, x: Connection, p: Request, ticket: Id, r: Record, c: Connection, s: Slot, owed: bool)
    requires Tracked(w, c, s, owed) && w.lanes[x].lease.None? && (x == c ==> (Listed(w, c, s) ==> s in r.retired))
    ensures var r' := ReconnectRecord(r, x, w.ids); var (w1, ok) := Persist(w.(ids := w.ids + 4), x, r');
      && (ok ==> Tracked(Grant(Unfence(w1, x), x, p, ticket, r'.pendingSlot, r'), c, s, owed))
      && Tracked(Reply(w1, x, Failed(p.number)), c, s, owed)
  {
    var r' := ReconnectRecord(r, x, w.ids);
    var w0 := w.(ids := w.ids + 4);
    ReconnectKeeps(r, x, w.ids, s);
    MintTracks(w, w0.ids, c, s, owed);
    hide Persist, Grant, ReconnectRecord, Tracked, Listed, Has, Reply;
    PersistTracks(w0, x, r', c, s, owed);
    var (w1, ok) := Persist(w0, x, r');
    ReplyTracks(w1, x, Failed(p.number), c, s, owed);
    if ok {
      UnfenceTracks(w1, x, c, s, owed, r');
      GrantTracks(Unfence(w1, x), x, p, ticket, r'.pendingSlot, r', c, s, owed);
    }
  }

  lemma UnfenceTracks(w: World, x: Connection, c: Connection, s: Slot, owed: bool, r': Record)
    requires Tracked(w, c, s, owed) && w.lanes[x].lease.None?
    requires x == c ==> Get(w.disk.visible, c) == Some(r') && Get(w.disk.durable, c) == Some(r')
    requires r'.pendingSlot.Some? && r'.pendingSlot.value in r'.retired
    ensures Tracked(Unfence(w, x), c, s, owed)
    ensures x == c && r'.pendingSlot == Some(s) ==> Listed(Unfence(w, x), c, s)
  {}

  lemma DeleteTracks(w: World, x: Connection, r: Record, c: Connection, s: Slot, owed: bool)
    requires Tracked(w, c, s, owed) && (x == c ==> (Listed(w, c, s) ==> s in r.retired))
    ensures Tracked(Persist(w.(ids := w.ids + 3), x, DeleteRecord(r, x, w.ids)).0, c, s, owed)
  {
    if s in r.retired { DeleteKeepsListed(r, x, w.ids, s); }
    assert DeleteRecord(r, x, w.ids).pendingSlot.None?;
    hide Persist, DeleteRecord, Tracked, Listed;
    MintTracks(w, w.ids + 3, c, s, owed);
    PersistTracks(w.(ids := w.ids + 3), x, DeleteRecord(r, x, w.ids), c, s, owed);
  }

  lemma RefreshTracks(w: World, x: Connection, p: Request, ticket: Id, r: Record, c: Connection, s: Slot, owed: bool)
    requires Tracked(w, c, s, owed) && w.lanes[x].lease.None?
    requires x == c ==> (Listed(w, c, s) ==> s in r.retired) && PendingListed(Some(r), s)
    ensures var r' := RefreshRecord(r, x, w.ids); var (w1, ok) := Persist(w.(ids := w.ids + 1), x, r');
      && (ok && w.lanes[x].prior.None? ==> Tracked(Grant(w1, x, p, ticket, Some(Minted(x, w.ids)), r'), c, s, owed))
      && Tracked(Reply(w1, x, Failed(p.number)), c, s, owed)
  {
    var r' := RefreshRecord(r, x, w.ids);
    RetireLists(r, Some(Minted(x, w.ids)), s);
    assert r'.pendingSlot == r.pendingSlot;
    var w0 := w.(ids := w.ids + 1);
    MintTracks(w, w0.ids, c, s, owed);
    hide Persist, Grant, RefreshRecord, Tracked, Reply;
    PersistTracks(w0, x, r', c, s, owed);
    var (w1, ok) := Persist(w0, x, r');
    ReplyTracks(w1, x, Failed(p.number), c, s, owed);
    if ok && w.lanes[x].prior.None? { GrantTracks(w1, x, p, ticket, Some(Minted(x, w.ids)), r', c, s, owed); }
  }

  lemma AttemptTracks(g: Ghosts, w: World, x: Connection, p: Request, c: Connection, s: Slot, owed: bool)
    requires Safe(g, w) && Tracked(w, c, s, owed) && w.lanes[x].lease.None?
    ensures Tracked(Attempt(w, x, p), c, s, owed)
  {
    hide Safe, AttemptOn, Tracked, Matches;
    ReplyTracks(w, x, Failed(p.number), c, s, owed);
    ReplyTracks(w, x, Declined(p.number), c, s, owed);
    if !(Barred(w, x, p) || Ground(w, x).None?) {
      var r := Ground(w, x).value;
      GroundLists(g, w, x, p, c, s, owed);
      MintTracks(w, w.ids + 1, c, s, owed);
      hide Listed;
      AttemptOnTracks(w.(ids := w.ids + 1), x, p, w.ids, r, c, s, owed);
    }
  }

  lemma GroundLists(g: Ghosts, w: World, x: Connection, p: Request, c: Connection, s: Slot, owed: bool)
    requires Safe(g, w) && Tracked(w, c, s, owed) && !Barred(w, x, p) && Ground(w, x).Some?
    ensures var r := Ground(w, x).value;
      && (x == c ==> (Listed(w, c, s) ==> s in r.retired))
      && (p.action == Refresh ==> w.lanes[x].prior.None?)
      && (x == c && (p.action == Complete || p.action == Cancel) && r.pendingSlot == Some(s) ==> Listed(w, c, s))
      && (x == c && (p.action == Delete || p.action == Refresh) ==> PendingListed(Some(r), s))
  {
    hide Safe, Known;
    if !w.lanes[x].fenced { FreeAgrees(g, w, x); }
    hide State;
    if !w.lanes[x].fenced { StateReads(w, x); }
  }

  /** Outside fencing nothing is remembered, and the two files name the same candidate. */
  lemma FreeAgrees(g: Ghosts, w: World, x: Connection)
    requires Safe(g, w) && !w.lanes[x].fenced
    ensures w.lanes[x].prior.None?
    ensures OrLegacy(Get(w.disk.visible, x)).pendingSlot == OrLegacy(Get(w.disk.durable, x)).pendingSlot
  {
    SafeParts(g, w, x);
    hide Sound, Names, Held, Core, SoundOrLegacy, Stored, Unnamed;
    CorePending(OrLegacy(Get(w.disk.visible, x)), OrLegacy(Get(w.disk.durable, x)));
  }

  lemma StateReads(w: World, x: Connection)
    ensures State(w, x).Some? ==> State(w, x).value == OrLegacy(Get(w.disk.visible, x))
  {}

  lemma CorePending(a: Record, b: Record)
    requires Core(a) == Core(b)
    ensures a.pendingSlot == b.pendingSlot
  {
    assert Core(a).pendingSlot == a.pendingSlot && Core(b).pendingSlot == b.pendingSlot;
  }

  lemma {:induction false} NextTracks(g: Ghosts, w: World, x: Connection, c: Connection, s: Slot, owed: bool)
    requires Safe(g, w) && Tracked(w, c, s, owed) && w.lanes[x].lease.None?
    ensures Tracked(Next(w, x), c, s, owed)
    decreases |w.lanes[x].queue|, 0
  {
    hide Safe, Tracked, Attempt, Start, Onward, LiveTarget, Newer, SameElsewhere;
    var q := w.lanes[x].queue;
    if q != [] {
      var w1 := Put(w, x, w.lanes[x].(queue := q[1..]));
      SameConn(g, w, w1, x);
      LaneTracks(w, w1, c, s, owed);
      StartTracks(g, w1, x, q[0], c, s, owed);
    }
  }

  lemma {:induction false} StartTracks(g: Ghosts, w: World, x: Connection, p: Request, c: Connection, s: Slot,
      owed: bool)
    requires Safe(g, w) && Tracked(w, c, s, owed) && w.lanes[x].lease.None?
    ensures Tracked(Start(w, x, p), c, s, owed)
    decreases |w.lanes[x].queue|, 1
  {
    hide Safe, Tracked, Attempt, Next, Onward, LiveTarget, Newer, SameElsewhere;
    AttemptTracks(g, w, x, p, c, s, owed);
    AttemptKeeps(g, w, x, p);
    AttemptKeepsQueue(w, x, p);
    var w1 := Attempt(w, x, p);
    if w1.lanes[x].lease.None? { NextTracks(g, w1, x, c, s, owed); }
  }

  // ---- Calls ----

  lemma FinishTracks(g: Ghosts, w: World, owner: Owner, x: Connection, ticket: Id, operation: Operation,
      identity: Option<string>, c: Connection, s: Slot, owed: bool)
    requires Safe(g, w) && Tracked(w, c, s, owed) && (Holds(w, owner, x, ticket) ==> ReadyToActivate(g, w, x, operation))
    ensures Tracked(Finish(w, owner, x, ticket, operation, identity).0, c, s, owed)
  {
    hide Safe, Tracked, Settle, Next, ReadyToActivate, Stepped, Listed, FitToSettle, NeutralFinish;
    if Holds(w, owner, x, ticket) {
      var lease := w.lanes[x].lease.value;
      var w0 := WithoutLease(w, x);
      HeldFits(g, w, x, operation);
      WithoutLeaseKeeps(g, w, x);
      SteppedSafe(g, w, w0, x, true);
      LaneTracks(w, w0, c, s, owed);
      SettleKeeps(g, w0, x, lease, operation, identity);
      SteppedSafe(g, w0, Settle(w0, x, lease, operation, identity).0, x, NeutralFinish(w0, operation));
      SettleTracks(g, w0, x, lease, operation, identity, c, s, owed);
      SettleLane(w0, x, lease, operation, identity);
      NextTracks(g, Settle(w0, x, lease, operation, identity).0, x, c, s, owed);
    }
  }

  lemma SettleTracks(g: Ghosts, w: World, x: Connection, lease: Lease, operation: Operation, identity: Option<string>,
      c: Connection, s: Slot, owed: bool)
    requires Safe(g, w) && Tracked(w, c, s, owed)
    ensures Tracked(Settle(w, x, lease, operation, identity).0, c, s, owed)
  {
    hide Safe, Persist, Settle, State, DropRecord, CancelRecord, ActivateRecord, Carries;
    StateReadable(g, w, x);
    SettleShape(w, x, lease, operation, identity);
    var r := State(w, x).value;
    StateLists(g, w, x, c, s);
    hide Tracked, Listed;
    DropCarries(w, x, r, c, s, w.ids);
    MintTracks(w, w.ids + 3, c, s, owed);
    PersistTracks(w.(ids := w.ids + 3), x, DropRecord(r, w.ids), c, s, owed);
    PersistTracks(w, x, CancelRecord(r), c, s, owed);
    if lease.slot.Some? && identity.Some? {
      ActivateCarries(w, x, r, lease, identity.value, c, s);
      MintTracks(w, w.ids + 1, c, s, owed);
      PersistTracks(w.(ids := w.ids + 1), x, ActivateRecord(r, x, lease.action, lease.slot.value, identity.value, w.ids), c, s, owed);
    }
  }

  /** The record a call starts from lists what all records list. */
  lemma StateLists(g: Ghosts, w: World, x: Connection, c: Connection, s: Slot)
    requires Safe(g, w) && State(w, x).Some? && CandidateListed(w, c, s)
    ensures x == c ==> (Listed(w, c, s) ==> s in State(w, x).value.retired) && PendingListed(Some(State(w, x).value), s)
  {
    hide Safe;
  }

  lemma DropCarries(w: World, x: Connection, r: Record, c: Connection, s: Slot, n: nat)
    requires x == c ==> (Listed(w, c, s) ==> s in r.retired) && PendingListed(Some(r), s)
    ensures x == c ==> Carries(w.(ids := w.ids + 3), c, DropRecord(r, n), s) && Carries(w, c, CancelRecord(r), s)
  {
    RetireLists(r, r.slot, s);
    assert CancelRecord(r).retired == r.retired && CancelRecord(r).pendingSlot.None?;
    assert DropRecord(r, n).pendingSlot == r.pendingSlot && DropRecord(r, n).retired == Retire(r, r.slot).retired;
    hide DropRecord, CancelRecord, Retire, Has;
  }

  lemma ActivateCarries(w: World, x: Connection, r: Record, lease: Lease, identity: string, c: Connection, s: Slot)
    requires (x == c ==> (Listed(w, c, s) ==> s in r.retired) && PendingListed(Some(r), s)) && lease.slot.Some?
    ensures x == c ==> Carries(w.(ids := w.ids + 1), c, ActivateRecord(r, x, lease.action, lease.slot.value, identity, w.ids), s)
  {
    ActivateListed(r, x, lease.action, lease.slot.value, identity, w.ids, s);
    hide ActivateRecord, Has;
  }

  lemma MigrateTracks(g: Ghosts, w: World, owner: Owner, x: Connection, ticket: Id, c: Connection, s: Slot, owed: bool)
    requires Safe(g, w) && Tracked(w, c, s, owed)
    ensures Tracked(PrepareMigration(w, owner, x, ticket).0, c, s, owed)
  {
    hide Safe, Persist, State, MigrationRecord, PrepareMigration, ValidBackup, Tracked, Listed, MigrationSlot,
      MigrationIds;
    var w2 := PrepareMigration(w, owner, x, ticket).0;
    if w2 != w {
      MigrateShape(w, owner, x, ticket);
      var r := State(w, x).value;
      var owes := owed || Writable(w, c, s);
      OwesWritable(w, c, s, owed);
      StateLists(g, w, x, c, s) by { TrackedCandidate(w, c, s, owed); }
      MigrationTracks(g, w, x, r, c, s, owes);
      var w0 := WithoutLease(w, x).(ids := w.ids + MigrationIds(r));
      var (w1, ok) := Persist(w0, x, MigrationRecord(r, x, w.ids));
      MigratedTracks(w, w1, w2, x, c, s, owed, MigrationSlot(r, x, w.ids), ok);
    }
  }

  lemma OwesWritable(w: World, c: Connection, s: Slot, owed: bool)
    requires Tracked(w, c, s, owed)
    ensures Tracked(w, c, s, owed || Writable(w, c, s))
  {
    hide Listed;
  }

  lemma TrackedCandidate(w: World, c: Connection, s: Slot, owed: bool)
    requires Tracked(w, c, s, owed)
    ensures CandidateListed(w, c, s)
  {
    hide Listed;
  }

  lemma MigrationTracks(g: Ghosts, w: World, x: Connection, r: Record, c: Connection, s: Slot, owed: bool)
    requires Safe(g, w) && Tracked(w, c, s, owed)
    requires x == c ==> (Listed(w, c, s) ==> s in r.retired) && PendingListed(Some(r), s)
    ensures var w0, r' := WithoutLease(w, x).(ids := w.ids + MigrationIds(r)), MigrationRecord(r, x, w.ids);
            var (w1, ok) := Persist(w0, x, r');
      && Tracked(w1, c, s, owed) && (Listed(w, c, s) ==> Listed(w1, c, s))
      && (ok && x == c && MigrationSlot(r, x, w.ids) == s && !w.lanes[c].fenced ==> Listed(w1, c, s))
      && w1.lanes[c].fenced == (w.lanes[c].fenced || (x == c && !ok)) && (x != c ==> w1.lanes[c] == w.lanes[c])
  {
    hide Safe, MigrationRecord, MigrationSlot, MigrationIds, Tracked, Has, Persist, Commit, Get;
    var w0, r' := WithoutLease(w, x).(ids := w.ids + MigrationIds(r)), MigrationRecord(r, x, w.ids);
    MigrationLists(r, x, w.ids, s);
    LaneTracks(w, w0, c, s, owed);
    assert Listed(w0, c, s) == Listed(w, c, s);
    PersistTracks(w0, x, r', c, s, owed);
    PersistFences(w0, x, r');
    if !w.lanes[c].fenced { FreeAgrees(g, w, c); }
    var (w1, ok) := Persist(w0, x, r');
    if ok && x == c && MigrationSlot(r, x, w.ids) == s { ListsRecord(Get(w1.disk.visible, c), r', s); }
  }

  lemma ListsRecord(o: Option<Record>, r: Record, s: Slot)
    requires o == Some(r) && s in r.retired
    ensures Has(o, s)
  {}

  lemma PersistFences(w: World, x: Connection, r: Record)
    ensures var (w1, ok) := Persist(w, x, r);
      && w1.lanes[x].fenced == (w.lanes[x].fenced || !ok) && forall c :: c != x ==> w1.lanes[c] == w.lanes[c]
  {}

  lemma MigrationLists(r: Record, x: Connection, n: Id, s: Slot)
    ensures var r' := MigrationRecord(r, x, n);
      (s in r.retired || s == MigrationSlot(r, x, n) ==> s in r'.retired) && r'.pendingSlot == r.pendingSlot
  {
    var barred := if r.mode == Some(Active) then r else Barrier(r, Migration, n);
    RetireLists(barred, Some(MigrationSlot(r, x, n)), s);
  }

  lemma MigratedTracks(w: World, w1: World, w2: World, x: Connection, c: Connection, s: Slot, owed: bool, slot: Slot,
      ok: bool)
    requires Tracked(w, c, s, owed) && Tracked(w1, c, s, owed || Writable(w, c, s)) && w.lanes[x].lease.Some?
    requires ok && x == c && slot == s && !w.lanes[c].fenced ==> Listed(w1, c, s)
    requires w1.lanes[c].fenced == (w.lanes[c].fenced || (x == c && !ok))
    requires x != c ==> w1.lanes[c] == w.lanes[c]
    requires var lease := w.lanes[x].lease.value;
      w2 == Put(w1, x, w1.lanes[x].(lease := Some(lease.(slot := Some(slot), writable := if ok then Some(slot) else lease.writable))))
    ensures Tracked(w2, c, s, owed)
  {
    assert Listed(w1, c, s) == Listed(w2, c, s) && CandidateListed(w2, c, s) == CandidateListed(w1, c, s);
    hide Listed, CandidateListed;
  }

  // ---- Best-effort calls ----

  predicate SameFiles(d: Disk, e: Disk) { d.visible == e.visible && d.durable == e.durable }

  /** Reservations, queues, answers and counters aside, the lane is the same. */
  predicate SameRest(a: Lane, b: Lane) { a.lease == b.lease && a.prior == b.prior && a.fenced == b.fenced }

  lemma RestTracks(w: World, w1: World, c: Connection, s: Slot, owed: bool)
    requires Tracked(w, c, s, owed) && SameFiles(w.disk, w1.disk) && SameRest(w.lanes[c], w1.lanes[c])
    ensures Tracked(w1, c, s, owed)
  {
    hide Has, PendingListed;
  }

  lemma QueueCleanupTracks(g: Ghosts, w: World, owner: Owner, x: Connection, ticket: Id, c: Connection, s: Slot,
      owed: bool)
    requires Safe(g, w) && Tracked(w, c, s, owed)
    ensures Tracked(QueueLegacyCleanup(w, owner, x, ticket).0, c, s, owed)
  {
    hide Safe, State, SoftPersist, Tracked, Listed, Retire;
    if State(w, x).Some? {
      var r := State(w, x).value;
      StateLists(g, w, x, c, s) by { TrackedCandidate(w, c, s, owed); }
      var barred := if r.generation.Some? then r else Barrier(r, Legacy, w.ids);
      RetireLists(barred, Some(PastedSecret(x)), s);
      RetireKeepsPending(barred, Some(PastedSecret(x)));
      var w0 := w.(ids := w.ids + if r.generation.Some? then 0 else 3);
      MintTracks(w, w0.ids, c, s, owed);
      SoftTracks(w0, x, Retire(barred, Some(PastedSecret(x))), c, s, owed);
    }
  }

  lemma RetireKeepsPending(r: Record, x: Option<Slot>)
    ensures Retire(r, x).pendingSlot == r.pendingSlot
  {}

  /** The acknowledgement that drops `s`: the holder names it, no record guards it, it is neither
      the slot being written nor an abandoned one, and the commit reaches memory or the file. */
  predicate Forgets(w: World, e: Event, c: Connection, s: Slot) {
    && e.AcknowledgeCall? && e.connection == c && s in e.cleaned && Holds(w, e.owner, c, e.ticket)
    && !Guarded(Known(w.disk.visible, c), c, s) && w.lanes[c].lease.value.slot != Some(s) && s !in w.abandoned
    && NextFault(w.disk) != Lost(false, false)
  }

  lemma AcknowledgeTracks(g: Ghosts, w: World, e: Event, c: Connection, s: Slot, owed: bool)
    requires Safe(g, w) && Tracked(w, c, s, owed) && e.AcknowledgeCall? && !Forgets(w, e, c, s)
    requires Holds(w, e.owner, e.connection, e.ticket) ==> e.connection in w.disk.visible
    ensures Tracked(Engine(w, e), c, s, owed)
  {
    hide Safe, SoftPersist, Tracked, Listed, Unacknowledged, Guarded;
    var x := e.connection;
    if Holds(w, e.owner, x, e.ticket) {
      StateReadable(g, w, x);
      var r := State(w, x).value;
      StateSound(g, w, x);
      StateLists(g, w, x, c, s) by { TrackedCandidate(w, c, s, owed); }
      var writeSlot := w.lanes[x].lease.value.slot;
      UnacknowledgedSubset(r.retired, e.cleaned, r, x, writeSlot, w.abandoned, s);
      var slots := Unacknowledged(r.retired, e.cleaned, r, x, writeSlot, w.abandoned);
      if NextFault(w.disk) == Lost(false, false) {
        NothingStored(w, x, w.disk.visible[x].(retired := slots));
        RestTracks(w, Engine(w, e), c, s, owed);
      } else {
        SoftTracks(w, x, w.disk.visible[x].(retired := slots), c, s, owed);
      }
    }
  }

  lemma NothingStored(w: World, c: Connection, r: Record)
    requires NextFault(w.disk) == Lost(false, false)
    ensures var w1 := SoftPersist(w, c, r).0; SameFiles(w.disk, w1.disk) && w1.lanes == w.lanes
  {}

  /** A write that leaves the retired list and the candidate alone. */
  lemma SameListTracks(g: Ghosts, w: World, x: Connection, n: nat, r': Record, c: Connection, s: Slot, owed: bool)
    requires Safe(g, w) && Tracked(w, c, s, owed) && State(w, x).Some?
    requires r'.retired == State(w, x).value.retired && r'.pendingSlot == State(w, x).value.pendingSlot
    ensures Tracked(SoftPersist(w.(ids := n), x, r').0, c, s, owed)
  {
    hide Safe, SoftPersist, Tracked, Listed, State;
    StateLists(g, w, x, c, s) by { TrackedCandidate(w, c, s, owed); }
    MintTracks(w, n, c, s, owed);
    SoftTracks(w.(ids := n), x, r', c, s, owed);
  }

  lemma ClearTracks(g: Ghosts, w: World, x: Connection, expected: Option<Version>, c: Connection, s: Slot, owed: bool)
    requires Safe(g, w) && Tracked(w, c, s, owed)
    ensures Tracked(ClearSnapshot(w, x, expected).0, c, s, owed)
  {
    hide Safe, State, SoftPersist, Tracked, Same;
    if State(w, x).Some? {
      SameListTracks(g, w, x, w.ids + 1, State(w, x).value.(epoch := Some(w.ids), cache := EmptyCache), c, s, owed);
    }
  }

  lemma WriteTracks(g: Ghosts, w: World, x: Connection, expected: Option<Version>, payload: string, at: int,
      c: Connection, s: Slot, owed: bool)
    requires Safe(g, w) && Tracked(w, c, s, owed)
    ensures Tracked(WriteSnapshot(w, x, expected, payload, at).0, c, s, owed)
    ensures Tracked(UpgradeSnapshotTimestamp(w, x, expected, payload, at).0, c, s, owed)
  {
    hide Safe, State, SoftPersist, Tracked, Same, EffectiveTime;
    if State(w, x).Some? {
      var r := State(w, x).value;
      assert w.(ids := w.ids) == w;
      SameListTracks(g, w, x, w.ids, r.(cache := Cache(Some(payload), Some(Number(at)), Some("1"), true)), c, s, owed);
      SameListTracks(g, w, x, w.ids, r.(cache := r.cache.(at := Some(Number(at)), micros := true)), c, s, owed);
    }
  }

  // ---- Detachment ----

  lemma DetachLeaseTracks(g: Ghosts, w: World, owner: Owner, x: Connection, c: Connection, s: Slot, owed: bool)
    requires Safe(g, w) && Tracked(w, c, s, owed)
    ensures Tracked(DetachLease(w, owner, x), c, s, owed)
  {
    hide Safe, Next, Persist, State, DetachRecord, Tracked, Listed, Onward, LiveTarget, Newer, SameElsewhere;
    var l := w.lanes[x];
    if l.lease.Some? && l.lease.value.owner == owner {
      var w1 := Abandon(w, x);
      LaneTracks(w, w1, c, s, owed);
      if l.lease.value.action == Read {
        AbandonKeeps(g, w, x);
        NextTracks(g, w1, x, c, s, owed);
      } else {
        DetachWriterKeeps(g, w, x);
        ParkTracks(g, w, w1, x, c, s, owed);
        NextTracks(g, Persist(w1.(ids := w1.ids + 3), x, DetachRecord(State(w1, x).value, w1.ids)).0, x, c, s, owed);
      }
    }
  }

  lemma ParkTracks(g: Ghosts, w: World, w1: World, x: Connection, c: Connection, s: Slot, owed: bool)
    requires Safe(g, w) && w.lanes[x].lease.Some? && w1 == Abandon(w, x) && Tracked(w, c, s, owed) && Tracked(w1, c, s, owed)
    requires State(w1, x).Some?
    ensures Tracked(Persist(w1.(ids := w1.ids + 3), x, DetachRecord(State(w1, x).value, w1.ids)).0, c, s, owed)
  {
    assert State(w1, x) == State(w, x) && (Listed(w1, c, s) <==> Listed(w, c, s));
    var r := State(w, x).value;
    RetireLists(r, r.slot, s);
    assert DetachRecord(r, w1.ids).retired == Retire(r, r.slot).retired && DetachRecord(r, w1.ids).pendingSlot.None?;
    hide Safe, Persist, DetachRecord, Tracked, Listed, State, Retire, Abandon;
    StateLists(g, w, x, c, s) by { TrackedCandidate(w, c, s, owed); }
    MintTracks(w1, w1.ids + 3, c, s, owed);
    PersistTracks(w1.(ids := w1.ids + 3), x, DetachRecord(r, w1.ids), c, s, owed);
  }

  lemma {:induction false} DetachLeasesTrack(g: Ghosts, w: World, owner: Owner, order: seq<Connection>, c: Connection,
      s: Slot, owed: bool)
    requires Safe(g, w) && Tracked(w, c, s, owed)
    ensures Tracked(DetachLeases(w, owner, order), c, s, owed)
    decreases |order|
  {
    hide Safe, Tracked, DetachLease, Onward, Accrues, SameElsewhere, LiveTarget;
    if order != [] {
      DetachLeaseTracks(g, w, owner, order[0], c, s, owed);
      DetachLeaseKeeps(g, w, owner, order[0]);
      DetachLeasesTrack(g, DetachLease(w, owner, order[0]), owner, order[1..], c, s, owed);
    }
  }

  lemma {:induction false} DetachFetchesTrack(w: World, owner: Owner, order: seq<Connection>, c: Connection, s: Slot,
      owed: bool)
    requires Tracked(w, c, s, owed)
    ensures Tracked(DetachFetches(w, owner, order), c, s, owed)
    decreases |order|
  {
    hide Tracked;
    if order != [] {
      var f := w.lanes[order[0]].fetch.lease;
      if f.Some? && f.value.owner == owner {
        var w1 := ReleaseFetch(w, owner, order[0], f.value.ticket);
        ReleaseTracks(w, owner, order[0], f.value.ticket, c, s, owed);
        DetachFetchesTrack(w1, owner, order[1..], c, s, owed);
      } else {
        DetachFetchesTrack(w, owner, order[1..], c, s, owed);
      }
    }
  }

  lemma ReleaseTracks(w: World, owner: Owner, x: Connection, ticket: Id, c: Connection, s: Slot, owed: bool)
    requires Tracked(w, c, s, owed)
    ensures Tracked(ReleaseFetch(w, owner, x, ticket), c, s, owed) && Tracked(AcquireFetch(w, owner, x), c, s, owed)
  {
    hide Tracked;
    RestTracks(w, ReleaseFetch(w, owner, x, ticket), c, s, owed);
    RestTracks(w, AcquireFetch(w, owner, x), c, s, owed);
  }

  lemma DetachTracks(g: Ghosts, w: World, owner: Owner, order: seq<Connection>, c: Connection, s: Slot, owed: bool)
    requires Safe(g, w) && Tracked(w, c, s, owed)
    ensures Tracked(Detach(w, owner, order), c, s, owed)
  {
    hide Safe, Tracked, DetachLeases, DetachFetches, Without, Gone, Onward, LiveTarget;
    var a := DropAllFetchQueues(w, owner);
    RestTracks(w, a, c, s, owed);
    DropQueuesKeeps(g, w, owner);
    DetachFetchesTrack(a, owner, order, c, s, owed);
    var b := DetachFetches(a, owner, order);
    DetachFetchesKeeps(g, a, owner, order);
    RestTracks(b, DropAllQueues(b, owner), c, s, owed);
    DropQueuesKeeps(g, b, owner);
    DetachLeasesTrack(g, DropAllQueues(b, owner), owner, order, c, s, owed);
  }

  // ---- Runs ----

  /** A client writes `s` under a lease on `c` that saw no refused migration commit. */
  ghost predicate Writes(w: World, e: Event, c: Connection, s: Slot) {
    e.ClientWrite? && e.connection == c && Writable(w, c, s)
  }

  lemma EventTracks(s: System, e: Event, c: Connection, slot: Slot, owed: bool)
    requires Sane(s) && Allowed(s, e) && !Forgets(s.world, e, c, slot) && Tracked(s.world, c, slot, owed)
    ensures Tracked(After(s, e).world, c, slot, owed || Writes(s.world, e, c, slot))
  {
    hide Safe, Queued, Tracked, Recorded;
    if e.FinishCall? {
      FinishEventTracks(s, e, c, slot, owed);
    } else if e.RestartProcess? {
      RestartTracks(s.world, c, slot, owed);
    } else {
      CallTracks(s, e, c, slot, owed);
      OwesWritable(s.world, c, slot, owed);
      hide Engine, Allowed;
      if Writes(s.world, e, c, slot) { SoftLanes(s.world, e); }
    }
  }

  lemma CallTracks(s: System, e: Event, c: Connection, slot: Slot, owed: bool)
    requires Sane(s) && Allowed(s, e) && !Forgets(s.world, e, c, slot) && Tracked(s.world, c, slot, owed)
    requires !e.FinishCall? && !e.RestartProcess?
    ensures Tracked(Engine(s.world, e), c, slot, owed)
    ensures e.ClientWrite? ==> Engine(s.world, e) == s.world
  {
    hide Safe, Queued, Tracked;
    var g, w := s.ghosts, s.world;
    match e {
      case AcquireCall(owner, x, action, expected, fetchTicket) =>
        AcquireTracks(g, w, owner, x, action, expected, fetchTicket, c, slot, owed);
      case PrepareCall(owner, x, ticket) => MigrateTracks(g, w, owner, x, ticket, c, slot, owed);
      case QueueCleanupCall(owner, x, ticket) => QueueCleanupTracks(g, w, owner, x, ticket, c, slot, owed);
      case AcknowledgeCall(_, _, _, _) => AcknowledgeTracks(g, w, e, c, slot, owed);
      case AcquireFetchCall(owner, x) => ReleaseTracks(w, owner, x, 0, c, slot, owed);
      case ReleaseFetchCall(owner, x, ticket) => ReleaseTracks(w, owner, x, ticket, c, slot, owed);
      case ReadCall(x, expected) => hide ClearSnapshot; ClearTracks(g, w, x, expected, c, slot, owed);
      case WriteCall(x, expected, payload, at) => WriteTracks(g, w, x, expected, payload, at, c, slot, owed);
      case UpgradeCall(x, expected, payload, at) => WriteTracks(g, w, x, expected, payload, at, c, slot, owed);
      case ClearCall(x, expected) => ClearTracks(g, w, x, expected, c, slot, owed);
      case DetachCall(owner, order) => DetachTracks(g, w, owner, order, c, slot, owed);
      case ClientWrite(_, _, _, _) =>
      case ClientDelete(_, _, _, _) =>
      case LateWrite(_, _) =>
    }
  }

  lemma AcquireTracks(g: Ghosts, w: World, owner: Owner, x: Connection, action: Action, expected: Option<Version>,
      fetchTicket: Option<Id>, c: Connection, s: Slot, owed: bool)
    requires Safe(g, w) && Tracked(w, c, s, owed)
    ensures Tracked(Acquire(w, owner, x, action, expected, fetchTicket), c, s, owed)
  {
    hide Safe, Tracked, Start, Stepped;
    var l := w.lanes[x];
    if l.lease.Some? {
      RestTracks(w, Acquire(w, owner, x, action, expected, fetchTicket), c, s, owed);
    } else {
      var w1 := Put(w, x, l.(arrived := l.arrived + 1));
      RestTracks(w, w1, c, s, owed);
      SameConn(g, w, w1, x);
      SteppedSafe(g, w, w1, x, true);
      StartTracks(g, w1, x, Request(owner, action, expected, fetchTicket, l.arrived), c, s, owed);
    }
  }

  lemma FinishEventTracks(s: System, e: Event, c: Connection, slot: Slot, owed: bool)
    requires Sane(s) && Allowed(s, e) && e.FinishCall? && Tracked(s.world, c, slot, owed)
    ensures Tracked(Engine(s.world, e), c, slot, owed)
  {
    SealSafe(s, e);
    hide Safe, Queued, Tracked, Recorded, Finish, Allowed, ReadyToActivate;
    var h := Recorded(s, e);
    if Holds(s.world, e.owner, e.connection, e.ticket) {
      FinishTracks(h, s.world, e.owner, e.connection, e.ticket, e.operation, e.identity, c, slot, owed);
    } else {
      NothingFinished(s.world, e);
    }
  }

  lemma NothingFinished(w: World, e: Event)
    requires e.FinishCall? && !Holds(w, e.owner, e.connection, e.ticket)
    ensures Engine(w, e) == w
  {
    hide Next, Settle;
  }

  lemma RestartTracks(w: World, c: Connection, s: Slot, owed: bool)
    requires Tracked(w, c, s, owed)
    ensures Tracked(Restart(w), c, s, owed)
  {
    IdleAt(c);
    hide Has, PendingListed;
  }

  ghost predicate WrittenIn(s: System, events: seq<Event>, c: Connection, slot: Slot)
    decreases |events|
  {
    events != [] && (Writes(s.world, events[0], c, slot) || WrittenIn(After(s, events[0]), events[1..], c, slot))
  }

  ghost predicate NeverForgets(s: System, events: seq<Event>, c: Connection, slot: Slot)
    decreases |events|
  {
    events == [] || (!Forgets(s.world, events[0], c, slot) && NeverForgets(After(s, events[0]), events[1..], c, slot))
  }

  lemma {:induction false} RunTracks(s: System, events: seq<Event>, c: Connection, slot: Slot, owed: bool)
    requires Sane(s) && Permitted(s, events) && Tracked(s.world, c, slot, owed) && NeverForgets(s, events, c, slot)
    ensures Tracked(Run(s, events).world, c, slot, owed || WrittenIn(s, events, c, slot))
    decreases |events|
  {
    hide Sane, Tracked, After, Allowed, Writes, Onward, Forgets;
    if events != [] {
      EventTracks(s, events[0], c, slot, owed);
      EventSane(s, events[0]);
      RunTracks(After(s, events[0]), events[1..], c, slot, owed || Writes(s.world, events[0], c, slot));
    }
  }

  lemma FreshTracked(faults: nat -> Fault, ids: nat, secrets: map<Slot, Secret>, c: Connection, slot: Slot)
    ensures Tracked(Fresh(faults, ids, secrets).world, c, slot, false)
  {
    IdleAt(c);
  }

  /** From a first launch on: a slot written under a lease that saw no refused migration, and
      dropped by no acknowledgement, is still listed for cleanup by the visible record, the
      durable one and the one a recovery would return to. */
  lemma UnacknowledgedSlotsAreListed(faults: nat -> Fault, ids: nat, secrets: map<Slot, Secret>, events: seq<Event>,
      c: Connection, slot: Slot)
    requires Permitted(Fresh(faults, ids, secrets), events)
    requires WrittenIn(Fresh(faults, ids, secrets), events, c, slot)
    requires NeverForgets(Fresh(faults, ids, secrets), events, c, slot)
    ensures Listed(Run(Fresh(faults, ids, secrets), events).world, c, slot)
  {
    hide Run, Permitted, Fresh, Sane, WrittenIn, Listed, NeverForgets, CandidateListed, Writable;
    var start := Fresh(faults, ids, secrets);
    FreshTracked(faults, ids, secrets, c, slot);
    FreshSane(faults, ids, secrets);
    RunTracks(start, events, c, slot, false);
  }

  // ---- Exactly how long a slot stays listed ----

  /** Listed now and after every one of the events. */
  ghost predicate AlwaysListed(s: System, events: seq<Event>, c: Connection, slot: Slot)
    decreases |events|
  {
    Listed(s.world, c, slot) && (events != [] ==> AlwaysListed(After(s, events[0]), events[1..], c, slot))
  }

  lemma ListedTracked(w: World, c: Connection, slot: Slot)
    requires Listed(w, c, slot)
    ensures Tracked(w, c, slot, true)
  {}

  /** One event takes a listed slot off the list exactly when it is the acknowledgement that
      drops it. */
  lemma EventForgetsIff(s: System, e: Event, c: Connection, slot: Slot)
    requires Sane(s) && Allowed(s, e) && Listed(s.world, c, slot)
    ensures Listed(After(s, e).world, c, slot) <==> !Forgets(s.world, e, c, slot)
  {
    if !Forgets(s.world, e, c, slot) {
      ListedTracked(s.world, c, slot);
      hide Sane, Allowed, Forgets, Recorded, Engine, Listed;
      EventTracks(s, e, c, slot, true);
    } else {
      ForgottenUnlisted(s, e, c, slot);
    }
  }

  lemma ForgottenUnlisted(s: System, e: Event, c: Connection, slot: Slot)
    requires Sane(s) && Allowed(s, e) && Forgets(s.world, e, c, slot)
    ensures !Listed(After(s, e).world, c, slot)
  {
    var w := s.world;
    StateReadable(s.ghosts, w, c);
    StateSound(s.ghosts, w, c);
    var r := State(w, c).value;
    var writeSlot := w.lanes[c].lease.value.slot;
    var slots := Unacknowledged(r.retired, e.cleaned, r, c, writeSlot, w.abandoned);
    UnacknowledgedSubset(r.retired, e.cleaned, r, c, writeSlot, w.abandoned, slot);
    hide Unacknowledged, Guarded, Safe, Queued;
    var r' := w.disk.visible[c].(retired := slots);
    assert Engine(w, e).disk == Commit(w.disk, w.disk.visible[c := r']).0;
  }

  /** From any moment at which all records list a slot, written or not: it stays listed
      throughout exactly when no acknowledgement drops it. No cancellation, supersession,
      vanished owner, crash or refused commit takes it off. */
  lemma {:induction false} ListedIff(s: System, events: seq<Event>, c: Connection, slot: Slot)
    requires Sane(s) && Permitted(s, events) && Listed(s.world, c, slot)
    ensures AlwaysListed(s, events, c, slot) <==> NeverForgets(s, events, c, slot)
    decreases |events|
  {
    hide Sane, Allowed, After, Listed, Forgets;
    if events != [] {
      EventForgetsIff(s, events[0], c, slot);
      EventSane(s, events[0]);
      if !Forgets(s.world, events[0], c, slot) { ListedIff(After(s, events[0]), events[1..], c, slot); }
    }
  }

  // ---- Whether a slot is listed when it is handed out for writing ----

  lemma SavedListed(w: World, c: Connection, r: Record, slot: Slot)
    requires Get(w.disk.visible, c) == Some(r) && Get(w.disk.durable, c) == Some(r) && w.lanes[c].prior.None?
    ensures Listed(w, c, slot) <==> slot in r.retired
  {}

  lemma GrantDisk(w: World, c: Connection, p: Request, ticket: Id, slot: Option<Slot>, r: Record)
    ensures var w1 := Grant(w, c, p, ticket, slot, r);
      && w1.disk == w.disk && w1.lanes[c].prior == w.lanes[c].prior
      && w1.lanes[c].lease.Some? && w1.lanes[c].lease.value.slot == slot
  {
    hide Cleanup, ViewOf, Elements, LegacyKey;
  }

  lemma MintingGrantLists(w: World, c: Connection, p: Request, ticket: Id, r: Record)
    requires w.lanes[c].lease.None? && (p.action == Reconnect || (p.action == Refresh && w.lanes[c].prior.None?))
    ensures var w1 := AttemptOn(w, c, p, ticket, r);
      w1.lanes[c].lease.Some? ==> w1.lanes[c].lease.value.slot.Some? && Listed(w1, c, w1.lanes[c].lease.value.slot.value)
  {
    hide Persist, Grant, ReconnectRecord, RefreshRecord, Listed, LiveTarget, Commit;
    if p.action == Reconnect {
      var r' := ReconnectRecord(r, c, w.ids);
      var w1 := Persist(w.(ids := w.ids + 4), c, r').0;
      ReconnectKeeps(r, c, w.ids, Minted(c, w.ids + 3));
      PersistShape(w.(ids := w.ids + 4), c, r');
      GrantDisk(Unfence(w1, c), c, p, ticket, r'.pendingSlot, r');
      if AttemptOn(w, c, p, ticket, r).lanes[c].lease.Some? {
        SavedListed(AttemptOn(w, c, p, ticket, r), c, r', Minted(c, w.ids + 3));
      }
    } else {
      var r' := RefreshRecord(r, c, w.ids);
      var w1 := Persist(w.(ids := w.ids + 1), c, r').0;
      RetireLists(r, Some(Minted(c, w.ids)), Minted(c, w.ids));
      assert Minted(c, w.ids) in r'.retired by { RefreshIsRetire(r, c, w.ids); }
      PersistShape(w.(ids := w.ids + 1), c, r');
      GrantDisk(w1, c, p, ticket, Some(Minted(c, w.ids)), r');
      if AttemptOn(w, c, p, ticket, r).lanes[c].lease.Some? {
        SavedListed(AttemptOn(w, c, p, ticket, r), c, r', Minted(c, w.ids));
      }
    }
  }

  lemma RefreshIsRetire(r: Record, c: Connection, n: Id)
    ensures RefreshRecord(r, c, n) == Retire(r, Some(Minted(c, n)))
  {}

  /** The other grants store nothing new, or hand out no slot at all. */
  lemma PlainGrantDisk(w: World, c: Connection, p: Request, ticket: Id, r: Record)
    requires w.lanes[c].lease.None? && p.action != Reconnect && p.action != Refresh
    ensures var w1 := AttemptOn(w, c, p, ticket, r);
      w1.lanes[c].lease.Some? && w1.lanes[c].lease.value.slot.Some? ==> w1.disk == w.disk && w1.lanes[c].prior == w.lanes[c].prior
  {
    hide Grant, Matches, Persist, DeleteRecord;
    GrantDisk(w, c, p, ticket, r.pendingSlot, r);
    GrantDisk(w, c, p, ticket, None, r);
    var r' := DeleteRecord(r, c, w.ids);
    var w0 := w.(ids := w.ids + 3);
    GrantDisk(Persist(w0, c, r').0, c, p, ticket, None, r');
    PersistShape(w0, c, r');
    hide LiveTarget, Commit;
  }

  /** A reconnect or a refresh always hands out a listed slot; a completion or a cancellation
      does exactly when both files still list the candidate. */
  lemma GrantedSlotListedIff(g: Ghosts, w: World, c: Connection, p: Request, slot: Slot)
    requires Safe(g, w) && w.lanes[c].lease.None?
    requires var l := Attempt(w, c, p).lanes[c]; l.lease.Some? && l.lease.value.slot == Some(slot)
    ensures Listed(Attempt(w, c, p), c, slot) <==>
      p.action == Reconnect || p.action == Refresh || (Has(Get(w.disk.visible, c), slot) && Has(Get(w.disk.durable, c), slot))
  {
    if !w.lanes[c].fenced { FreeAgrees(g, w, c); }
    hide Safe, Ground, Matches, AttemptOn, Listed, Has;
    var w0, r := w.(ids := w.ids + 1), Ground(w, c).value;
    if p.action == Reconnect || p.action == Refresh {
      MintingGrantLists(w0, c, p, w.ids, r);
    } else {
      PlainGrantDisk(w0, c, p, w.ids, r);
      SameListed(w, Attempt(w, c, p), c, slot);
    }
  }

  lemma SameListed(w: World, w1: World, c: Connection, slot: Slot)
    requires w1.disk == w.disk && w1.lanes[c].prior == w.lanes[c].prior == None
    ensures Listed(w1, c, slot) <==> Has(Get(w.disk.visible, c), slot) && Has(Get(w.disk.durable, c), slot)
  {}

  /** A successful migration preparation hands out a listed slot exactly when no commit of the
      connection was refused before: a recovery would return to a record without it. */
  lemma PreparedSlotListedIff(g: Ghosts, w: World, owner: Owner, c: Connection, ticket: Id)
    requires Safe(g, w) && PrepareMigration(w, owner, c, ticket).1.Success?
    ensures State(w, c).Some?
    ensures var w1, slot := PrepareMigration(w, owner, c, ticket).0, MigrationSlot(State(w, c).value, c, w.ids);
      && w1.lanes[c].lease.Some? && w1.lanes[c].lease.value.writable == Some(slot)
      && (Listed(w1, c, slot) <==> w.lanes[c].prior.None?)
  {
    var r := State(w, c).value;
    var slot, r' := MigrationSlot(r, c, w.ids), MigrationRecord(r, c, w.ids);
    var lease := w.lanes[c].lease.value;
    var held := Put(w.(ids := w.ids + MigrationIds(r)), c, w.lanes[c].(lease := Some(lease.(slot := Some(slot)))));
    MigrationLists(r, c, w.ids, slot);
    PriorLacks(g, w, c, slot);
    hide Safe, MigrationRecord, MigrationSlot, MigrationIds, State, ValidBackup, Persist, Has, LiveTarget;
    PersistShape(held, c, r');
    var w1 := PrepareMigration(w, owner, c, ticket).0;
    assert Get(w1.disk.visible, c) == Some(r') && Get(w1.disk.durable, c) == Some(r');
    ListsRecord(Get(w1.disk.visible, c), r', slot);
  }

  lemma PriorLacks(g: Ghosts, w: World, c: Connection, slot: Slot)
    requires Safe(g, w) && slot.Minted? && slot.id >= w.ids
    ensures w.lanes[c].prior.Some? ==> slot !in w.lanes[c].prior.value.retired
  {
    SafeParts(g, w, c);
  }

  /** From the moment a migration hands out its slot: the slot stays listed exactly when no
      commit of the connection had been refused before and no acknowledgement drops it. */
  lemma PreparedSlotStaysIff(s: System, owner: Owner, c: Connection, ticket: Id, later: seq<Event>)
    requires Sane(s) && PrepareMigration(s.world, owner, c, ticket).1.Success?
    requires Permitted(After(s, PrepareCall(owner, c, ticket)), later)
    ensures State(s.world, c).Some?
    ensures var t, slot := After(s, PrepareCall(owner, c, ticket)), MigrationSlot(State(s.world, c).value, c, s.world.ids);
      AlwaysListed(t, later, c, slot) <==> s.world.lanes[c].prior.None? && NeverForgets(t, later, c, slot)
  {
    var e := PrepareCall(owner, c, ticket);
    assert Engine(s.world, e) == PrepareMigration(s.world, owner, c, ticket).0 && Allowed(s, e);
    hide PrepareMigration, Safe, Queued, Onward, Listed, NeverForgets, MigrationSlot, State, Permitted, Forgets, Allowed;
    PreparedSlotListedIff(s.ghosts, s.world, owner, c, ticket);
    EventSane(s, e);
    var slot := MigrationSlot(State(s.world, c).value, c, s.world.ids);
    if Listed(After(s, e).world, c, slot) { ListedIff(After(s, e), later, c, slot); }
  }

  /** An acquisition that is granted without waiting. */
  function AtOnce(w: World, e: Event): World
    requires e.AcquireCall?
  {
    Attempt(Asked(w, e.connection), e.connection,
            Request(e.owner, e.action, e.expected, e.fetchTicket, w.lanes[e.connection].arrived))
  }

  function Asked(w: World, c: Connection): World { Put(w, c, w.lanes[c].(arrived := w.lanes[c].arrived + 1)) }

  lemma AtOnceIsAfter(s: System, e: Event)
    requires e.AcquireCall? && s.world.lanes[e.connection].lease.None? && AtOnce(s.world, e).lanes[e.connection].lease.Some?
    ensures Engine(s.world, e) == AtOnce(s.world, e) && Allowed(s, e)
  {
    hide Attempt, Next;
  }

  lemma AskedSafe(g: Ghosts, w: World, c: Connection)
    requires Safe(g, w)
    ensures var w0 := Asked(w, c); Safe(g, w0) && w0.disk == w.disk && w0.lanes[c].lease == w.lanes[c].lease
  {
    hide Safe, Onward, LiveTarget, Newer, SameElsewhere;
    SameConn(g, w, Asked(w, c), c);
  }

  /** From the moment a sign-in or a refresh is handed a slot: the slot stays listed exactly when
      it was minted for this lease, or both files still listed the candidate, and no
      acknowledgement drops it. */
  lemma GrantedSlotStaysIff(s: System, e: Event, later: seq<Event>, slot: Slot)
    requires Sane(s) && e.AcquireCall? && s.world.lanes[e.connection].lease.None?
    requires Permitted(After(s, e), later)
    requires var l := AtOnce(s.world, e).lanes[e.connection]; l.lease.Some? && l.lease.value.slot == Some(slot)
    ensures var c, d := e.connection, s.world.disk;
      AlwaysListed(After(s, e), later, c, slot) <==>
        && (e.action == Reconnect || e.action == Refresh || (Has(Get(d.visible, c), slot) && Has(Get(d.durable, c), slot)))
        && NeverForgets(After(s, e), later, c, slot)
  {
    hide Attempt, Safe, Queued, Onward, Listed, NeverForgets, Permitted, Forgets, Allowed, Engine, Has, Asked;
    var c, w := e.connection, s.world;
    AtOnceIsAfter(s, e);
    AskedSafe(s.ghosts, w, c);
    GrantedSlotListedIff(s.ghosts, Asked(w, c), c, Request(e.owner, e.action, e.expected, e.fetchTicket, w.lanes[c].arrived), slot);
    EventSane(s, e);
    if Listed(After(s, e).world, c, slot) { ListedIff(After(s, e), later, c, slot); }
  }

  // ---- Runs, continued ----

  lemma {:induction false} RunsJoin(s: System, a: seq<Event>, b: seq<Event>)
    ensures Run(s, a + b) == Run(Run(s, a), b)
    ensures Permitted(s, a + b) <==> Permitted(s, a) && Permitted(Run(s, a), b)
    decreases |a|
  {
    hide After, Allowed;
    if a == [] {
      assert a + b == b;
    } else {
      RunsJoin(After(s, a[0]), a[1..], b);
      assert (a + b)[1..] == a[1..] + b;
    }
  }

  /** So a secret whose slot is listed when it is written (the last time) is listed ever after
      exactly when no later acknowledgement drops it, whatever was acknowledged before. */
  lemma NoSecretForgotten(faults: nat -> Fault, ids: nat, secrets: map<Slot, Secret>, before: seq<Event>,
      write: Event, later: seq<Event>, c: Connection, slot: Slot)
    requires Permitted(Fresh(faults, ids, secrets), before + ([write] + later)) && write.ClientWrite?
    requires Listed(Run(Fresh(faults, ids, secrets), before).world, c, slot)
    ensures var s := Run(Fresh(faults, ids, secrets), before + [write]);
      && Run(Fresh(faults, ids, secrets), before + ([write] + later)) == Run(s, later)
      && (AlwaysListed(s, later, c, slot) <==> NeverForgets(s, later, c, slot))
  {
    var start := Fresh(faults, ids, secrets);
    FreshSane(faults, ids, secrets);
    hide Run, Permitted, Fresh, Sane, Listed, NeverForgets, AlwaysListed, After;
    assert before + ([write] + later) == (before + [write]) + later;
    RunsJoin(start, before + [write], later);
    RunsJoin(start, before, [write]);
    RunSane(start, before);
    RunSane(start, before + [write]);
    var s := Run(start, before);
    OneEvent(s, write);
    assert Listed(Run(start, before + [write]).world, c, slot) by { WriteKeepsList(s, write, c, slot); }
    ListedIff(Run(start, before + [write]), later, c, slot);
  }

  lemma OneEvent(s: System, e: Event)
    ensures Run(s, [e]) == After(s, e) && (Permitted(s, [e]) <==> Allowed(s, e))
  {
    hide After, Allowed;
    assert [e][1..] == [];
    assert Run(After(s, e), []) == After(s, e);
  }

  lemma WriteKeepsList(s: System, e: Event, c: Connection, slot: Slot)
    requires e.ClientWrite? && Listed(s.world, c, slot)
    ensures Listed(After(s, e).world, c, slot)
  {
    hide Recorded, Listed;
  }

  /** The exception: a recovery lists exactly what the remembered record knew, its slot, the
      original key and the new candidate. A slot written after a refused migration commit
      under the same lease is not among them. */
  lemma RecoveryListsIff(w: World, c: Connection, p: Request, slot: Slot)
    requires w.lanes[c].fenced && w.lanes[c].prior.Some? && w.lanes[c].lease.None? && p.action == Reconnect
    requires Attempt(w, c, p).lanes[c].lease.Some?
    ensures var w1, r := Attempt(w, c, p), w.lanes[c].prior.value;
      && c in w1.disk.visible
      && (slot in w1.disk.visible[c].retired <==>
            slot in r.retired || r.slot == Some(slot) || slot == LegacyKey(c) || w1.disk.visible[c].pendingSlot == Some(slot))
  {
    ReconnectListsIff(w.lanes[c].prior.value, c, w.ids + 1, slot);
    RecoveryStores(w, c, p);
    hide Attempt, ReconnectRecord, LegacyKey;
  }

  lemma RecoveryStores(w: World, c: Connection, p: Request)
    requires w.lanes[c].fenced && w.lanes[c].prior.Some? && w.lanes[c].lease.None? && p.action == Reconnect
    requires Attempt(w, c, p).lanes[c].lease.Some?
    ensures Get(Attempt(w, c, p).disk.visible, c) == Some(ReconnectRecord(w.lanes[c].prior.value, c, w.ids + 1))
  {
    hide ReconnectRecord, Matches, Cleanup, ViewOf, Elements, LegacyKey, ValidFetch, Persist, Commit, LiveTarget;
    PersistShape(w.(ids := w.ids + 5), c, ReconnectRecord(w.lanes[c].prior.value, c, w.ids + 1));
  }

  lemma ReconnectListsIff(r: Record, c: Connection, n: Id, slot: Slot)
    ensures slot in ReconnectRecord(r, c, n).retired <==>
              slot in r.retired || r.slot == Some(slot) || slot == LegacyKey(c) || ReconnectRecord(r, c, n).pendingSlot == Some(slot)
  {
    hide LegacyKey, Retire;
    var kept := Remember(r, c);
    assert kept.retired == r.retired && kept.slot == r.slot;
    hide Remember;
    RetireLists(kept, kept.slot, slot);
    RetireLists(Retire(kept, kept.slot), Some(LegacyKey(c)), slot);
    var two := Retire(Retire(kept, kept.slot), Some(LegacyKey(c)));
    RetireLists(RemoveBackup(Barrier(two, Mode.Pending, n).(slot := None, identity := None)), Some(Minted(c, n + 3)), slot);
  }
}
