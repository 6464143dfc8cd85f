/** What must hold of the lease engine in every reachable state, whatever its clients, its
    storage and its process lifetime do. */
module Safety {
  import opened Wrappers
  import opened CredentialRecords
  import opened LeaseWorld

  type Secret = string

  /** One accepted snapshot write. */
  datatype Entry = Entry(connection: Connection, generation: Id, identity: string, epoch: Id, payload: string)

  /** What the engine never sees: the secure store itself and the history of its clients.
      `sealed[s]` is the secret written under the lease that last set out to activate `s`;
      `wrote[t]` is the last slot and secret written under ticket `t`. */
  datatype Ghosts = Ghosts(secrets: map<Slot, Secret>, sealed: map<Slot, Secret>,
                           wrote: map<Id, (Slot, Secret)>, written: set<Entry>)

  // ---- One stored record ----

  predicate Kept(g: Ghosts, s: Slot) {
    s in g.sealed && s in g.secrets && g.secrets[s] == g.sealed[s]
  }

  predicate Owned(c: Connection, n: nat, s: Slot) { Home(s) == c && (s.Minted? ==> s.id < n) }

  predicate OwnedMint(c: Connection, n: nat, s: Slot) { s.Minted? && Owned(c, n, s) }

  ghost predicate Sound(g: Ghosts, c: Connection, n: nat, r: Record) {
    && Readable(r) && r.generation.value < n && r.revision.value < n && r.epoch.value < n
    && (r.mode == Some(Active) <==> r.slot.Some?)
    && (r.slot.Some? ==> OwnedMint(c, n, r.slot.value) && Kept(g, r.slot.value))
    && (r.previousSlot.Some? <==> r.previousIdentity.Some?)
    && (r.previousSlot.Some? ==> OwnedMint(c, n, r.previousSlot.value) && Kept(g, r.previousSlot.value))
    && (r.previousSlot.Some? ==> r.mode == Some(Pending) || r.mode == Some(Deleted))
    && (r.pendingSlot.Some? ==> OwnedMint(c, n, r.pendingSlot.value) && r.pendingSlot != r.previousSlot)
    && (r.pendingSlot.Some? ==> r.mode == Some(Pending) || r.mode == Some(Deleted))
    && (r.backupKey.Some? ==> r.backupKey.value == LegacyKey(c))
    && (r.previousBackupKey.Some? ==> r.previousBackupKey.value == LegacyKey(c))
    && OwnsAll(c, n, r.retired)
    && (r.mode != Some(Active) ==> r.cache == EmptyCache)
    && (r.cache.payload.Some? ==>
          Entry(c, r.generation.value, r.identity.value, r.epoch.value, r.cache.payload.value) in g.written)
  }

  predicate OwnsAll(c: Connection, n: nat, slots: seq<Slot>) { forall s :: s in slots ==> Owned(c, n, s) }

  ghost predicate SoundOrLegacy(g: Ghosts, c: Connection, n: nat, r: Record) { r == LegacyState || Sound(g, c, n, r) }

  ghost predicate Stored(g: Ghosts, c: Connection, n: nat, o: Option<Record>) { o.Some? ==> Sound(g, c, n, o.value) }

  /** The part of a record that a best-effort write may not touch. */
  function Core(r: Record): Record {
    var q := r.(cache := EmptyCache, epoch := None, retired := []);
    if r.mode == Some(Legacy) then q.(lifecycle := false, generation := None, revision := None) else q
  }

  function OrLegacy(o: Option<Record>): Record { if o.Some? then o.value else LegacyState }

  function Get(s: Store, c: Connection): Option<Record> { if c in s then Some(s[c]) else None }

  // ---- One connection: `v` is its visible record, `d` its durable one ----

  predicate Unnamed(s: Slot, v: Option<Record>, d: Option<Record>, l: Lane) {
    !Names(OrLegacy(v), s) && !Names(OrLegacy(d), s) && (l.prior.Some? ==> !Names(l.prior.value, s))
  }

  predicate Unguarded(c: Connection, s: Slot, v: Option<Record>, d: Option<Record>, l: Lane) {
    !Guarded(OrLegacy(v), c, s) && !Guarded(OrLegacy(d), c, s) && (l.prior.Some? ==> !Guarded(l.prior.value, c, s))
  }

  /** A slot whose holder may write it: no record that could ever be restored names it. */
  predicate Candidate(c: Connection, n: nat, ab: set<Slot>, s: Slot, v: Option<Record>, d: Option<Record>, l: Lane) {
    OwnedMint(c, n, s) && s !in ab && Unnamed(s, v, d, l)
  }

  ghost predicate Base(g: Ghosts, n: nat, ab: set<Slot>, c: Connection, v: Option<Record>, d: Option<Record>, l: Lane) {
    && Stored(g, c, n, v) && Stored(g, c, n, d)
    && (l.prior.Some? ==> SoundOrLegacy(g, c, n, l.prior.value) && l.fenced)
    && (forall s :: s in ab ==> Unnamed(s, v, d, l))
    && (l.fetch.lease.Some? ==> l.fetch.lease.value.ticket < n)
  }

  ghost predicate Synced(ab: set<Slot>, v: Option<Record>, d: Option<Record>, l: Lane) {
    && (!l.fenced ==> Core(OrLegacy(v)) == Core(OrLegacy(d)))
    && (!l.fenced ==> forall s :: s in ab ==> OrLegacy(v).pendingSlot != Some(s))
  }

  predicate HeldMode(lease: Lease, fenced: bool, v: Option<Record>) {
    match lease.action
    case Read =>
      && (lease.slot.Some? ==> OrLegacy(v).pendingSlot != lease.slot)
      && (fenced ==> OrLegacy(v).mode in {Some(Legacy), Some(Migration), Some(Active)})
      && (lease.slot.Some? && lease.writable == lease.slot ==>
            v.Some? && (v.value.mode == Some(Migration) || v.value.mode == Some(Active)))
    case Refresh => !fenced && v.Some? && v.value.mode == Some(Active)
    case Delete => !fenced && v.Some? && v.value.mode == Some(Deleted) && lease.slot.None?
    case UnknownAction => false
    case _ => !fenced && v.Some? && v.value.mode == Some(Pending) && v.value.pendingSlot == lease.slot
  }

  ghost predicate Held(g: Ghosts, n: nat, ab: set<Slot>, c: Connection, v: Option<Record>, d: Option<Record>, l: Lane)
    requires l.lease.Some?
  {
    var lease := l.lease.value;
    && lease.ticket < n
    && (lease.slot.Some? ==> Candidate(c, n, ab, lease.slot.value, v, d, l) && lease.slot.value !in lease.deletable)
    && (lease.writable.Some? ==> Candidate(c, n, ab, lease.writable.value, v, d, l) && lease.writable.value !in lease.deletable)
    && (forall s :: s in lease.deletable ==> Owned(c, n, s) && Unguarded(c, s, v, d, l))
    && (lease.ticket in g.wrote && Some(g.wrote[lease.ticket].0) == lease.slot ==>
          lease.slot.value in g.secrets && g.secrets[lease.slot.value] == g.wrote[lease.ticket].1)
    && HeldMode(lease, l.fenced, v)
  }

  ghost predicate Conn(g: Ghosts, n: nat, ab: set<Slot>, c: Connection, v: Option<Record>, d: Option<Record>, l: Lane) {
    && Base(g, n, ab, c, v, d, l)
    && Synced(ab, v, d, l)
    && (l.lease.Some? ==> Held(g, n, ab, c, v, d, l))
  }

  // ---- The whole process ----

  ghost predicate BaseAt(g: Ghosts, w: World, c: Connection) {
    Base(g, w.ids, w.abandoned, c, Get(w.disk.visible, c), Get(w.disk.durable, c), w.lanes[c])
  }

  ghost predicate ConnAt(g: Ghosts, w: World, c: Connection) {
    Conn(g, w.ids, w.abandoned, c, Get(w.disk.visible, c), Get(w.disk.durable, c), w.lanes[c])
  }

  /** Ghost history and abandoned slots only mention ids already minted. */
  ghost predicate Past(g: Ghosts, w: World) {
    && (forall s :: s in w.abandoned ==> s.Minted? && s.id < w.ids)
    && (forall t :: t in g.wrote ==> t < w.ids && g.wrote[t].0.Minted? && g.wrote[t].0.id < w.ids)
  }

  ghost predicate AllBut(g: Ghosts, w: World, c: Connection) {
    Past(g, w) && forall d :: d != c ==> ConnAt(g, w, d)
  }

  ghost predicate Safe(g: Ghosts, w: World) {
    Past(g, w) && forall c :: ConnAt(g, w, c)
  }

  // ---- Record edits keep records sound ----

  lemma SoundLater(g: Ghosts, c: Connection, n: nat, m: nat, r: Record)
    requires Sound(g, c, n, r) && n <= m
    ensures Sound(g, c, m, r)
  {}

  lemma RetireSound(g: Ghosts, c: Connection, n: nat, r: Record, s: Option<Slot>)
    requires Sound(g, c, n, r) && (s.Some? ==> Owned(c, n, s.value))
    ensures Sound(g, c, n, Retire(r, s))
  {}

  lemma RetireOwns(c: Connection, n: nat, r: Record, s: Option<Slot>)
    requires OwnsAll(c, n, r.retired) && (s.Some? ==> Owned(c, n, s.value))
    ensures OwnsAll(c, n, Retire(r, s).retired)
  {}

  lemma MintHome(c: Connection, n: Id)
    ensures Home(Minted(c, n)) == c
  {}

  lemma LegacyHome(c: Connection)
    ensures Home(LegacyKey(c)) == c && !LegacyKey(c).Minted?
  {}

  lemma RememberSound(g: Ghosts, c: Connection, n: nat, r: Record)
    requires SoundOrLegacy(g, c, n, r)
    ensures var k := Remember(r, c);
      && k.slot == r.slot && k.retired == r.retired
      && (k.previousSlot.Some? <==> k.previousIdentity.Some?)
      && (k.previousSlot.Some? ==> OwnedMint(c, n, k.previousSlot.value) && Kept(g, k.previousSlot.value))
      && (k.previousBackupKey.Some? ==> k.previousBackupKey.value == LegacyKey(c))
      && (k.previousSlot.Some? ==> Names(r, k.previousSlot.value))
      && TargetOf(r) == if k.previousSlot.Some? then SlotTarget(k.previousSlot.value, k.previousIdentity.value)
                        else if k.previousMode == Some(Legacy) then LegacyTarget else NoTarget
  {}

  lemma RetireShape(c: Connection, n: nat, r: Record, s: Option<Slot>)
    requires OwnsAll(c, n, r.retired) && (s.Some? ==> Owned(c, n, s.value))
    ensures Retire(r, s) == r.(retired := Retire(r, s).retired) && OwnsAll(c, n, Retire(r, s).retired)
  {}

  lemma ReconnectSound(g: Ghosts, c: Connection, n: nat, r: Record)
    requires SoundOrLegacy(g, c, n, r)
    ensures Sound(g, c, n + 4, ReconnectRecord(r, c, n))
    ensures TargetOf(ReconnectRecord(r, c, n)) == TargetOf(r)
    ensures forall s :: Names(ReconnectRecord(r, c, n), s) ==> Names(r, s)
  {
    hide Remember, Retire, TargetOf, LegacyKey, Kept, Home;
    LegacyHome(c);
    assert Home(Minted(c, n + 3)) == c by { MintHome(c, n + 3); }
    RememberSound(g, c, n, r);
    var kept := Remember(r, c);
    assert OwnsAll(c, n + 4, kept.retired);
    RetireShape(c, n + 4, kept, kept.slot);
    var one := Retire(kept, kept.slot);
    RetireShape(c, n + 4, one, Some(LegacyKey(c)));
    var two := Retire(one, Some(LegacyKey(c)));
    var cleared := RemoveBackup(Barrier(two, Pending, n).(slot := None, identity := None));
    RetireShape(c, n + 4, cleared, Some(Minted(c, n + 3)));
    var done := ReconnectRecord(r, c, n);
    assert done.previousSlot == kept.previousSlot && done.previousIdentity == kept.previousIdentity;
    assert done.mode == Some(Pending) && done.slot == None && done.previousMode == kept.previousMode;
    PendingTarget(done);
  }

  lemma PendingTarget(r: Record)
    requires r.mode == Some(Pending) && (r.previousSlot.Some? <==> r.previousIdentity.Some?)
    ensures TargetOf(r) == if r.previousSlot.Some? then SlotTarget(r.previousSlot.value, r.previousIdentity.value)
                           else if r.previousMode == Some(Legacy) then LegacyTarget else NoTarget
  {}

  lemma DeleteSound(g: Ghosts, c: Connection, n: nat, r: Record)
    requires SoundOrLegacy(g, c, n, r)
    ensures Sound(g, c, n + 3, DeleteRecord(r, c, n))
    ensures forall s :: !Guarded(DeleteRecord(r, c, n), c, s)
  {
    var one := Retire(r, r.slot);
    var two := Retire(one, Some(LegacyKey(c)));
    RetireOwns(c, n + 3, r, r.slot);
    RetireOwns(c, n + 3, one, Some(LegacyKey(c)));
    if c == OpenaiPlan {
      RetireOwns(c, n + 3, two, Some(CompanionConfig));
    } else if c == AnthropicPlan {
      RetireOwns(c, n + 3, two, Some(PastedSecret(AnthropicPlan)));
    }
  }

  lemma MigrationSound(g: Ghosts, c: Connection, n: nat, r: Record)
    requires SoundOrLegacy(g, c, n, r)
    requires r.mode == Some(Legacy) || r.mode == Some(Migration) || ValidBackup(r, c)
    ensures Sound(g, c, n + MigrationIds(r), MigrationRecord(r, c, n))
    ensures TargetOf(MigrationRecord(r, c, n)) == TargetOf(r)
    ensures forall s :: Names(MigrationRecord(r, c, n), s) ==> Names(r, s)
    ensures forall s :: Guarded(MigrationRecord(r, c, n), c, s) ==> Guarded(r, c, s)
  {
    var barred := if r.mode == Some(Active) then r else Barrier(r, Migration, n);
    RetireOwns(c, n + MigrationIds(r), barred, Some(MigrationSlot(r, c, n)));
  }

  lemma ActivateShape(r: Record, c: Connection, action: Action, slot: Slot, identity: string, n: Id)
    ensures var r' := ActivateRecord(r, c, action, slot, identity, n);
      && r'.slot == Some(slot) && r'.identity == Some(identity) && r'.mode == Some(Active) && r'.revision == Some(n)
      && r'.previousSlot.None? && r'.pendingSlot.None?
      && r'.generation == r.generation && r'.epoch == r.epoch && r'.cache == r.cache
  {}

  lemma ActivateSound(g: Ghosts, c: Connection, n: nat, r: Record, action: Action, slot: Slot, identity: string)
    requires Sound(g, c, n, r) && OwnedMint(c, n, slot) && Kept(g, slot)
    requires r.mode == Some(Active) || action == Refresh ==> r.identity == Some(identity)
    ensures Sound(g, c, n + 1, ActivateRecord(r, c, action, slot, identity, n))
    ensures forall s :: Names(ActivateRecord(r, c, action, slot, identity, n), s) ==> s == slot
    ensures ActivateRecord(r, c, action, slot, identity, n).epoch == r.epoch
    ensures ActivateRecord(r, c, action, slot, identity, n).cache == r.cache
  {
    ActivateShape(r, c, action, slot, identity, n);
    hide LegacyKey, Home, Kept, BindBackup;
    LegacyHome(c);
    var migrated := if r.mode == Some(Migration) then r.(backupKey := Some(LegacyKey(c))) else r;
    var owned := if action == Complete || action == Refresh then RemoveBackup(Retire(migrated, migrated.backupKey))
                 else migrated;
    RetireOwns(c, n + 1, migrated, migrated.backupKey);
    RetireOwns(c, n + 1, owned, owned.slot);
    assert owned.backupKey.Some? ==> owned.backupKey.value == LegacyKey(c);
    ActivatedSound(g, c, n, r, Retire(owned, owned.slot), slot, identity);
  }

  lemma ActivatedSound(g: Ghosts, c: Connection, n: nat, r: Record, k: Record, slot: Slot, identity: string)
    requires Sound(g, c, n, r) && OwnedMint(c, n, slot) && Kept(g, slot)
    requires r.mode == Some(Active) ==> r.identity == Some(identity)
    requires k.lifecycle == r.lifecycle && k.generation == r.generation && k.epoch == r.epoch && k.cache == r.cache
    requires OwnsAll(c, n + 1, k.retired) && (k.backupKey.Some? ==> k.backupKey.value == LegacyKey(c))
    ensures var a := BindBackup(k.(slot := Some(slot), identity := Some(identity), revision := Some(n), mode := Some(Active)));
      Sound(g, c, n + 1, a.(previousSlot := None, previousIdentity := None, previousMode := None,
                            pendingSlot := None, previousBackupKey := None))
  {}

  lemma CancelSound(g: Ghosts, c: Connection, n: nat, r: Record)
    requires Sound(g, c, n, r) && r.mode == Some(Pending)
    ensures Sound(g, c, n, CancelRecord(r))
    ensures TargetOf(CancelRecord(r)) == TargetOf(r)
    ensures forall s :: Names(CancelRecord(r), s) ==> Names(r, s)
    ensures CancelRecord(r).epoch == r.epoch && CancelRecord(r).cache == r.cache
  {}

  lemma DropSound(g: Ghosts, c: Connection, n: nat, r: Record)
    requires SoundOrLegacy(g, c, n, r)
    ensures Sound(g, c, n + 3, DropRecord(r, n))
    ensures forall s :: Names(DropRecord(r, n), s) ==> Names(r, s)
  {
    RetireOwns(c, n + 3, r, r.slot);
  }

  lemma DetachSound(g: Ghosts, c: Connection, n: nat, r: Record)
    requires SoundOrLegacy(g, c, n, r)
    ensures Sound(g, c, n + 3, DetachRecord(r, n))
    ensures forall s :: !Names(DetachRecord(r, n), s)
  {
    RetireOwns(c, n + 3, r, r.slot);
  }
}
