/** What each call of the engine answers, and what it stores, told by the fields of the records it
    starts from and leaves. */
module LeaseAnswers {
  import opened Wrappers
  import opened CredentialRecords
  import opened LeaseWorld
  import opened Safety
  import opened LeaseSteps
  import opened LeaseCalls
  import opened LeaseDetach
  import opened LeaseQueue
  import opened LeaseRuns
  import opened LeaseTheorems
  import opened LeaseOffers
  import opened LeaseMemory
  import opened LeaseMarks

  // ---- acquire ----

  /** The record a request is checked against: the stored one, a legacy one when nothing is
      stored, or after a refused commit the one before it. */
  predicate AnsweredFrom(w: World, c: Connection, r: Record) {
    if w.lanes[c].fenced && w.lanes[c].prior.Some? then w.lanes[c].prior == Some(r)
    else if c in w.disk.visible then w.disk.visible[c] == r && Whole(r)
    else r == LegacyState
  }

  /** No key is missing that a reader of the record would look up. */
  predicate Whole(r: Record) {
    && r.lifecycle && r.mode.Some? && r.generation.Some? && r.revision.Some? && r.epoch.Some?
    && (r.mode == Some(Active) ==> r.slot.Some? && r.identity.Some?)
  }

  /** The quoted version is the record's own: a sign-in by generation and revision, anything
      else by generation, identity and credential revision. */
  predicate Quotes(v: Version, r: Record, action: Action) {
    && r.generation.Some? && v.generation == r.generation && r.revision.Some? && v.revision == r.revision
    && if action == Complete || action == Cancel then r.mode == Some(Pending)
       else r.mode == Some(Active) && r.identity.Some? && v.identity == r.identity
  }

  predicate Admitted(w: World, c: Connection, p: Request) {
    && (p.fetchTicket.Some? ==> w.lanes[c].fetch.lease == Some(FetchLease(p.owner, p.fetchTicket.value)))
    && (w.lanes[c].fenced ==> p.action == Reconnect)
  }

  predicate Grantable(w: World, p: Request, r: Record) {
    match p.action
    case Read => true
    case Refresh => r.mode == Some(Active) && NextFault(w.disk).Saved?
    case Reconnect => NextFault(w.disk).Saved?
    case Delete => NextFault(w.disk).Saved?
    case Complete => p.expected.Some?
    case Cancel => p.expected.Some?
    case UnknownAction => false
  }

  /** The lease is the requester's, and the answer tells it the ticket and the slot to write. */
  predicate LeasedFor(lease: Lease, p: Request, ticket: Id, a: Answer)
    requires a.Granted?
  {
    && lease.owner == p.owner && lease.action == p.action && lease.fetchTicket == p.fetchTicket
    && a.ticket == lease.ticket == ticket && a.writeSlot == lease.slot == lease.writable
  }

  lemma MatchesIsQuotes(r: Record, p: Request)
    requires p.expected.Some?
    ensures Matches(r, p) <==> Quotes(p.expected.value, r, p.action)
  {}

  lemma AnsweredFromGround(w: World, c: Connection, r: Record)
    requires AnsweredFrom(w, c, r)
    ensures Ground(w, c) == Some(r)
  {}

  /** One more answer, to this request, and a lease exactly when it is a grant. */
  predicate AnsweredWith(l: Lane, l1: Lane, p: Request, ticket: Id, granted: bool, declined: bool) {
    && |l1.answers| == |l.answers| + 1 && l1.answers[..|l.answers|] == l.answers
    && var a := l1.answers[|l.answers|];
       && a.request == p.number && a.Granted? == l1.lease.Some? == granted && a.Declined? == declined
       && (granted ==> LeasedFor(l1.lease.value, p, ticket, a))
  }

  lemma ReplyAnswers(w: World, c: Connection, p: Request, ticket: Id, declined: bool)
    requires w.lanes[c].lease.None?
    ensures var a := if declined then Declined(p.number) else Failed(p.number);
      AnsweredWith(w.lanes[c], Reply(w, c, a).lanes[c], p, ticket, false, declined)
  {}

  lemma GrantAnswers(w: World, c: Connection, p: Request, ticket: Id, slot: Option<Slot>, r: Record)
    ensures AnsweredWith(w.lanes[c], Grant(w, c, p, ticket, slot, r).lanes[c], p, ticket, true, false)
  {
    hide Cleanup, ViewOf, Elements, LegacyKey;
  }

  lemma SameAnswers(l: Lane, k: Lane, l1: Lane, p: Request, ticket: Id, granted: bool, declined: bool)
    requires AnsweredWith(k, l1, p, ticket, granted, declined) && k.answers == l.answers
    ensures AnsweredWith(l, l1, p, ticket, granted, declined)
  {}

  /** A commit and then the grant or the refusal it decides. */
  lemma CommitAnswers(w: World, w0: World, c: Connection, p: Request, ticket: Id, slot: Option<Slot>, r: Record)
    requires w.lanes[c].lease.None? && w0.lanes == w.lanes && w0.disk == w.disk
    ensures var (w1, ok) := Persist(w0, c, r);
      && ok == NextFault(w.disk).Saved?
      && AnsweredWith(w.lanes[c], Grant(w1, c, p, ticket, slot, r).lanes[c], p, ticket, true, false)
      && AnsweredWith(w.lanes[c], Grant(Unfence(w1, c), c, p, ticket, slot, r).lanes[c], p, ticket, true, false)
      && AnsweredWith(w.lanes[c], Reply(w1, c, Failed(p.number)).lanes[c], p, ticket, false, false)
  {
    hide Persist, Grant, Reply, AnsweredWith, LiveTarget, Commit;
    PersistShape(w0, c, r);
    var w1 := Persist(w0, c, r).0;
    GrantAnswers(w1, c, p, ticket, slot, r);
    GrantAnswers(Unfence(w1, c), c, p, ticket, slot, r);
    ReplyAnswers(w1, c, p, ticket, false);
    SameAnswers(w.lanes[c], w1.lanes[c], Grant(w1, c, p, ticket, slot, r).lanes[c], p, ticket, true, false);
    SameAnswers(w.lanes[c], Unfence(w1, c).lanes[c], Grant(Unfence(w1, c), c, p, ticket, slot, r).lanes[c], p, ticket, true, false);
    SameAnswers(w.lanes[c], w1.lanes[c], Reply(w1, c, Failed(p.number)).lanes[c], p, ticket, false, false);
  }

  lemma GrantIff(w: World, c: Connection, p: Request, ticket: Id, r: Record)
    requires w.lanes[c].lease.None? && (p.expected.Some? ==> Matches(r, p))
    ensures AnsweredWith(w.lanes[c], AttemptOn(w, c, p, ticket, r).lanes[c], p, ticket, Grantable(w, p, r), false)
  {
    hide Persist, Grant, Reply, ReconnectRecord, DeleteRecord, RefreshRecord, AnsweredWith, Unfence;
    NoVersionNoSignIn(r, p);
    hide Matches;
    ReplyAnswers(w, c, p, ticket, false);
    match p.action {
      case Reconnect =>
        var r' := ReconnectRecord(r, c, w.ids);
        CommitAnswers(w, w.(ids := w.ids + 4), c, p, ticket, r'.pendingSlot, r');
      case Delete => CommitAnswers(w, w.(ids := w.ids + 3), c, p, ticket, None, DeleteRecord(r, c, w.ids));
      case Refresh =>
        CommitAnswers(w, w.(ids := w.ids + 1), c, p, ticket, Some(Minted(c, w.ids)), RefreshRecord(r, c, w.ids));
      case Read => GrantAnswers(w, c, p, ticket, None, r);
      case UnknownAction =>
      case Complete => GrantAnswers(w, c, p, ticket, r.pendingSlot, r);
      case Cancel => GrantAnswers(w, c, p, ticket, r.pendingSlot, r);
    }
  }

  lemma NoVersionNoSignIn(r: Record, p: Request)
    ensures p.expected.None? ==> !Matches(r, p)
  {}

  /** Every request on an idle connection gets one answer: declined exactly when it quotes
      another version, granted exactly when it may be and the commit it needs is saved. */
  lemma AnswerIff(w: World, c: Connection, p: Request, r: Record)
    requires w.lanes[c].lease.None? && AnsweredFrom(w, c, r)
    ensures var w1 := Attempt(w, c, p);
            var fits := p.expected.None? || Quotes(p.expected.value, r, p.action);
      && AnsweredWith(w.lanes[c], w1.lanes[c], p, w.ids, Admitted(w, c, p) && fits && Grantable(w, p, r),
                      Admitted(w, c, p) && !fits)
      && (Admitted(w, c, p) && !fits ==> w1.disk == w.disk)
  {
    hide AnsweredWith, Quotes, AttemptOn, Grantable, Ground, Reply;
    AnsweredFromGround(w, c, r);
    ReplyAnswers(w, c, p, w.ids, false);
    ReplyAnswers(w, c, p, w.ids, true);
    ReplyDisk(w, c, Declined(p.number));
    if p.expected.Some? { MatchesIsQuotes(r, p); }
    hide Matches;
    if p.expected.None? || Matches(r, p) {
      GrantIff(w.(ids := w.ids + 1), c, p, w.ids, r);
      GrantableLater(w, p, r);
    }
  }

  lemma ReplyDisk(w: World, c: Connection, a: Answer)
    ensures Reply(w, c, a).disk == w.disk
  {}

  lemma GrantableLater(w: World, p: Request, r: Record)
    ensures Grantable(w.(ids := w.ids + 1), p, r) == Grantable(w, p, r)
  {}

  // ---- What a grant stores and answers ----

  /** Both files hold this record of the connection. */
  predicate Filed(w: World, c: Connection, r: Record) {
    Get(w.disk.visible, c) == Some(r) && Get(w.disk.durable, c) == Some(r)
  }

  /** Every version number is new, and none of them is another. */
  predicate Renewed(r: Record, n: nat) {
    && r.lifecycle && r.generation.Some? && r.revision.Some? && r.epoch.Some?
    && n <= r.generation.value && n <= r.revision.value && n <= r.epoch.value
    && r.generation != r.revision && r.generation != r.epoch && r.revision != r.epoch
  }

  predicate NoBackup(r: Record) {
    r.backupKey.None? && r.backupSlot.None? && r.backupGeneration.None? && r.backupRevision.None?
  }

  predicate NoPrevious(r: Record) { r.previousSlot.None? && r.previousIdentity.None? && r.previousMode.None? }

  /** The original key still belongs to the very record that the migration activated. */
  predicate BackupStands(r: Record, c: Connection) {
    && r.mode == Some(Active) && r.backupKey == Some(LegacyKey(c))
    && r.slot.Some? && r.backupSlot == r.slot && r.generation.Some? && r.backupGeneration == r.generation
    && r.revision.Some? && r.backupRevision == r.revision
  }

  /** Where each connection's original credential lies. */
  lemma LegacyKeys(c: Connection)
    ensures (LegacyKey(c) == CodexSession <==> c == OpenaiPlan) && (LegacyKey(c) == ClaudeSession <==> c == AnthropicPlan)
    ensures LegacyKey(c) == AdminApiKey <==> c == OpenaiPlatform
    ensures c in {AnthropicPlatform, CursorPlan, CursorPlatform} ==> LegacyKey(c) == PastedSecret(c)
  {}

  /** The keys a record may still need, or needs for a cancellation. */
  predicate Needs(r: Record, c: Connection, s: Slot) {
    || r.slot == Some(s) || r.previousSlot == Some(s) || r.previousBackupKey == Some(s)
    || (r.backupKey == Some(s) && BackupStands(r, c))
    || (s == LegacyKey(c) && (r.mode == Some(Legacy) || r.mode == Some(Migration) || r.previousMode == Some(Legacy)))
  }

  lemma GuardedIsNeeded(r: Record, c: Connection, s: Slot)
    ensures Guarded(r, c, s) <==> Needs(r, c, s)
  {
    hide LegacyKey;
  }

  /** What a sign-in keeps of the record it starts from, for its cancellation. */
  predicate Remembers(r: Record, r': Record, c: Connection) {
    match r.mode
    case Some(Active) =>
      && r'.previousSlot == r.slot && r'.previousIdentity == r.identity && r'.previousMode == Some(Active)
      && r'.previousBackupKey == if BackupStands(r, c) then r.backupKey else None
    case Some(Pending) =>
      && r'.previousSlot == r.previousSlot && r'.previousIdentity == r.previousIdentity
      && r'.previousMode == r.previousMode && r'.previousBackupKey == r.previousBackupKey
    case _ =>
      && r'.previousSlot.None? && r'.previousIdentity.None? && r'.previousBackupKey == r.previousBackupKey
      && r'.previousMode == if r.mode == Some(Legacy) || r.mode == Some(Migration) then Some(Legacy) else None
  }

  /** A sign-in begun on `r`, with every id minted from `n` on. */
  ghost predicate AsSignIn(r: Record, r': Record, c: Connection, n: nat, slot: Option<Slot>) {
    && r'.mode == Some(Pending) && Renewed(r', n) && r'.slot.None? && r'.identity.None? && NoBackup(r')
    && r'.cache == EmptyCache && Remembers(r, r', c)
    && slot.Some? && slot.value.Minted? && slot.value.id >= n && r'.pendingSlot == slot
    && forall s :: s in r'.retired <==> s in r.retired || r.slot == Some(s) || s == LegacyKey(c) || slot == Some(s)
  }

  ghost predicate AsDeletion(r: Record, r': Record, c: Connection, n: nat) {
    && r'.mode == Some(Deleted) && Renewed(r', n) && r'.slot.None? && r'.identity.None? && NoBackup(r')
    && r'.cache == EmptyCache && r'.pendingSlot.None? && NoPrevious(r') && r'.previousBackupKey.None?
    && forall s :: s in r'.retired <==>
         || s in r.retired || r.slot == Some(s) || s == LegacyKey(c)
         || (c == OpenaiPlan && s == CompanionConfig) || (c == AnthropicPlan && s == PastedSecret(AnthropicPlan))
  }

  /** One more slot listed, and nothing else changed. */
  ghost predicate AsListing(r: Record, r': Record, n: nat, slot: Option<Slot>) {
    && slot.Some? && slot.value.Minted? && slot.value.id >= n
    && r' == r.(retired := r'.retired) && forall s :: s in r'.retired <==> s in r.retired || slot == Some(s)
  }

  lemma RetireOnly(r: Record, x: Option<Slot>)
    ensures Retire(r, x) == r.(retired := Retire(r, x).retired)
  {}

  lemma RemembersOf(r: Record, c: Connection)
    ensures Remembers(r, Remember(r, c), c) && Remember(r, c).retired == r.retired && Remember(r, c).slot == r.slot
  {
    hide LegacyKey;
  }

  lemma ReconnectIsSignIn(r: Record, c: Connection, n: Id)
    ensures AsSignIn(r, ReconnectRecord(r, c, n), c, n, Some(Minted(c, n + 3)))
  {
    hide LegacyKey, Retire, Remember, BackupStands;
    var kept := Remember(r, c);
    RemembersOf(r, c);
    RetireOnly(kept, kept.slot);
    RetireOnly(Retire(kept, kept.slot), Some(LegacyKey(c)));
    var two := Retire(Retire(kept, kept.slot), Some(LegacyKey(c)));
    var cleared := RemoveBackup(Barrier(two, Pending, n).(slot := None, identity := None));
    RetireOnly(cleared, Some(Minted(c, n + 3)));
    var r' := ReconnectRecord(r, c, n);
    forall s ensures s in r'.retired <==> s in r.retired || r.slot == Some(s) || s == LegacyKey(c) || s == Minted(c, n + 3) {
      ReconnectListsIff(r, c, n, s);
    }
  }

  lemma DeleteIsDeletion(r: Record, c: Connection, n: Id)
    ensures AsDeletion(r, DeleteRecord(r, c, n), c, n)
  {
    hide LegacyKey, Retire;
    var keys := Retire(Retire(r, r.slot), Some(LegacyKey(c)));
    forall s ensures s in DeleteRecord(r, c, n).retired <==>
        || s in r.retired || r.slot == Some(s) || s == LegacyKey(c)
        || (c == OpenaiPlan && s == CompanionConfig) || (c == AnthropicPlan && s == PastedSecret(AnthropicPlan))
    {
      RetireLists(r, r.slot, s);
      RetireLists(Retire(r, r.slot), Some(LegacyKey(c)), s);
      RetireLists(keys, Some(CompanionConfig), s);
      RetireLists(keys, Some(PastedSecret(AnthropicPlan)), s);
    }
  }

  lemma RefreshIsListing(r: Record, c: Connection, n: Id)
    ensures AsListing(r, RefreshRecord(r, c, n), n, Some(Minted(c, n)))
  {
    forall s ensures s in RefreshRecord(r, c, n).retired <==> s in r.retired || s == Minted(c, n) {
      RetireLists(r, Some(Minted(c, n)), s);
    }
  }

  /** The record a granted request finds and leaves, and the slot it may write. */
  ghost predicate GrantStores(w: World, w1: World, c: Connection, p: Request, r: Record, r': Record, slot: Option<Slot>)
  {
    match p.action
    case Reconnect =>
      Filed(w1, c, r') && w1.lanes[c].prior.None? && !w1.lanes[c].fenced && AsSignIn(r, r', c, w.ids, slot)
    case Delete => Filed(w1, c, r') && slot.None? && AsDeletion(r, r', c, w.ids)
    case Refresh => Filed(w1, c, r') && AsListing(r, r', w.ids, slot)
    case Read => w1.disk == w.disk && r' == r && slot.None?
    case _ => w1.disk == w.disk && r' == r && slot == r.pendingSlot
  }

  /** The answer shows the record, without a backup key that no longer stands, and offers
      exactly the retired keys nobody needs. */
  ghost predicate Shows(a: Answer, r: Record, c: Connection, abandoned: set<Slot>) {
    && a.Granted?
    && a.view == r.(backupKey := if BackupStands(r, c) then r.backupKey else None)
    && forall s :: s in a.cleanup <==> s in r.retired && !Needs(r, c, s) && a.writeSlot != Some(s) && s !in abandoned
  }

  lemma GrantShows(w: World, c: Connection, p: Request, ticket: Id, slot: Option<Slot>, r: Record)
    ensures var w1 := Grant(w, c, p, ticket, slot, r); var l := w1.lanes[c];
      && |l.answers| == |w.lanes[c].answers| + 1 && Shows(l.answers[|w.lanes[c].answers|], r, c, w.abandoned)
      && w1.disk == w.disk && l.prior == w.lanes[c].prior && l.fenced == w.lanes[c].fenced
  {
    forall s ensures s in Cleanup(r.retired, r, c, slot, w.abandoned) <==>
        s in r.retired && !Needs(r, c, s) && slot != Some(s) && s !in w.abandoned
    {
      CleanupOffers(r.retired, r, c, slot, w.abandoned, s);
      GuardedIsNeeded(r, c, s);
    }
    hide Cleanup, Elements, LegacyKey, Needs, Guarded;
  }

  lemma ShowsMore(a: Answer, r: Record, c: Connection, x: set<Slot>, y: set<Slot>)
    requires Shows(a, r, c, x) && x == y
    ensures Shows(a, r, c, y)
  {}

  ghost predicate GrantTells(w: World, w1: World, c: Connection, p: Request, r: Record, r': Record) {
    && w1.lanes[c].lease.Some? && |w1.lanes[c].answers| == |w.lanes[c].answers| + 1
    && GrantStores(w, w1, c, p, r, r', w1.lanes[c].lease.value.slot)
    && Shows(w1.lanes[c].answers[|w.lanes[c].answers|], r', c, w.abandoned)
  }

  lemma CommittedGrant(w: World, w0: World, c: Connection, p: Request, ticket: Id, slot: Option<Slot>, r: Record)
    requires w0.lanes == w.lanes && w0.disk == w.disk && w0.abandoned == w.abandoned && NextFault(w.disk).Saved?
    ensures var w1 := Persist(w0, c, r).0;
            var a, b := Grant(w1, c, p, ticket, slot, r), Grant(Unfence(w1, c), c, p, ticket, slot, r);
            var k := |w.lanes[c].answers|;
      && Persist(w0, c, r).1 && Filed(a, c, r) && Filed(b, c, r) && b.lanes[c].prior.None? && !b.lanes[c].fenced
      && |a.lanes[c].answers| == |b.lanes[c].answers| == k + 1
      && a.lanes[c].lease.Some? && b.lanes[c].lease.Some?
      && a.lanes[c].lease.value.slot == b.lanes[c].lease.value.slot == slot
      && Shows(a.lanes[c].answers[k], r, c, w.abandoned) && Shows(b.lanes[c].answers[k], r, c, w.abandoned)
  {
    hide Persist, Grant, Shows, LiveTarget, Commit;
    PersistShape(w0, c, r);
    var w1 := Persist(w0, c, r).0;
    GrantShows(w1, c, p, ticket, slot, r);
    GrantShows(Unfence(w1, c), c, p, ticket, slot, r);
    GrantDisk(w1, c, p, ticket, slot, r);
    GrantDisk(Unfence(w1, c), c, p, ticket, slot, r);
  }

  /** What the granting branches share: the world `w1` they end in. */
  lemma TellsBy(w: World, w1: World, c: Connection, p: Request, r: Record, r': Record, slot: Option<Slot>)
    requires w1.lanes[c].lease.Some? && w1.lanes[c].lease.value.slot == slot
    requires |w1.lanes[c].answers| == |w.lanes[c].answers| + 1
    requires GrantStores(w, w1, c, p, r, r', slot) && Shows(w1.lanes[c].answers[|w.lanes[c].answers|], r', c, w.abandoned)
    ensures GrantTells(w, w1, c, p, r, r')
  {}

  lemma PlainGrantTells(w: World, c: Connection, p: Request, ticket: Id, r: Record)
    requires w.lanes[c].lease.None? && p.action in {Read, Complete, Cancel}
    ensures GrantTells(w, Grant(w, c, p, ticket, if p.action == Read then None else r.pendingSlot, r), c, p, r, r)
  {
    hide GrantTells, Shows, Cleanup, ViewOf, Elements;
    var slot := if p.action == Read then None else r.pendingSlot;
    GrantShows(w, c, p, ticket, slot, r);
    GrantDisk(w, c, p, ticket, slot, r);
    TellsBy(w, Grant(w, c, p, ticket, slot, r), c, p, r, r, slot);
  }

  lemma ReconnectTells(w: World, c: Connection, p: Request, ticket: Id, r: Record)
    requires w.lanes[c].lease.None? && p.action == Reconnect && NextFault(w.disk).Saved?
    ensures GrantTells(w, AttemptOn(w, c, p, ticket, r), c, p, r, ReconnectRecord(r, c, w.ids))
  {
    var r' := ReconnectRecord(r, c, w.ids);
    ReconnectIsSignIn(r, c, w.ids);
    SignInSlot(r, r', c, w.ids);
    hide Persist, Grant, ReconnectRecord, Unfence, Shows, AsSignIn, Filed, GrantTells;
    CommittedGrant(w, w.(ids := w.ids + 4), c, p, ticket, r'.pendingSlot, r');
    TellsBy(w, AttemptOn(w, c, p, ticket, r), c, p, r, r', r'.pendingSlot);
  }

  lemma DeleteTells(w: World, c: Connection, p: Request, ticket: Id, r: Record)
    requires w.lanes[c].lease.None? && p.action == Delete && NextFault(w.disk).Saved?
    ensures GrantTells(w, AttemptOn(w, c, p, ticket, r), c, p, r, DeleteRecord(r, c, w.ids))
  {
    var r' := DeleteRecord(r, c, w.ids);
    DeleteIsDeletion(r, c, w.ids);
    hide Persist, Grant, DeleteRecord, Unfence, Shows, AsDeletion, Filed, GrantTells;
    CommittedGrant(w, w.(ids := w.ids + 3), c, p, ticket, None, r');
    TellsBy(w, AttemptOn(w, c, p, ticket, r), c, p, r, r', None);
  }

  lemma RefreshTells(w: World, c: Connection, p: Request, ticket: Id, r: Record)
    requires w.lanes[c].lease.None? && p.action == Refresh && r.mode == Some(Active) && NextFault(w.disk).Saved?
    ensures GrantTells(w, AttemptOn(w, c, p, ticket, r), c, p, r, RefreshRecord(r, c, w.ids))
  {
    var r' := RefreshRecord(r, c, w.ids);
    RefreshIsListing(r, c, w.ids);
    hide Persist, Grant, RefreshRecord, Unfence, Shows, AsListing, Filed, GrantTells;
    CommittedGrant(w, w.(ids := w.ids + 1), c, p, ticket, Some(Minted(c, w.ids)), r');
    TellsBy(w, AttemptOn(w, c, p, ticket, r), c, p, r, r', Some(Minted(c, w.ids)));
  }

  lemma GrantOnTells(w: World, c: Connection, p: Request, ticket: Id, r: Record) returns (r': Record)
    requires w.lanes[c].lease.None? && Grantable(w, p, r) && (p.expected.Some? ==> Matches(r, p))
    ensures GrantTells(w, AttemptOn(w, c, p, ticket, r), c, p, r, r')
  {
    hide Persist, Grant, ReconnectRecord, DeleteRecord, RefreshRecord, Unfence, GrantTells, Matches;
    r' := r;
    match p.action {
      case Reconnect =>
        r' := ReconnectRecord(r, c, w.ids);
        ReconnectTells(w, c, p, ticket, r);
      case Delete =>
        r' := DeleteRecord(r, c, w.ids);
        DeleteTells(w, c, p, ticket, r);
      case Refresh =>
        r' := RefreshRecord(r, c, w.ids);
        RefreshTells(w, c, p, ticket, r);
      case _ => PlainGrantTells(w, c, p, ticket, r);
    }
  }

  lemma SignInSlot(r: Record, r': Record, c: Connection, n: nat)
    requires AsSignIn(r, r', c, n, Some(Minted(c, n + 3)))
    ensures r'.pendingSlot == Some(Minted(c, n + 3))
  {}

  lemma GrantedOn(w: World, c: Connection, p: Request, r: Record)
    requires w.lanes[c].lease.None? && AnsweredFrom(w, c, r) && Attempt(w, c, p).lanes[c].lease.Some?
    ensures Grantable(w, p, r) && (p.expected.Some? ==> Matches(r, p))
    ensures Attempt(w, c, p) == AttemptOn(w.(ids := w.ids + 1), c, p, w.ids, r)
  {
    AnsweredFromGround(w, c, r);
    if p.expected.Some? { MatchesIsQuotes(r, p); }
    hide AttemptOn, Ground, Matches, Quotes, AnsweredFrom, LeasedFor, Grantable;
    AnswerIff(w, c, p, r);
  }

  /** A granted request leaves the record its action calls for in both files, and its answer
      shows that record. */
  lemma GrantIsToldFrom(w: World, c: Connection, p: Request, r: Record) returns (r': Record)
    requires w.lanes[c].lease.None? && AnsweredFrom(w, c, r) && Attempt(w, c, p).lanes[c].lease.Some?
    ensures GrantTells(w, Attempt(w, c, p), c, p, r, r')
  {
    GrantedOn(w, c, p, r);
    GrantableLater(w, p, r);
    hide AttemptOn, Attempt, GrantTells, Matches, AnsweredFrom, Grantable;
    r' := GrantOnTells(w.(ids := w.ids + 1), c, p, w.ids, r);
    TellsEarlier(w, Attempt(w, c, p), c, p, r, r');
  }

  lemma TellsEarlier(w: World, w1: World, c: Connection, p: Request, r: Record, r': Record)
    requires GrantTells(w.(ids := w.ids + 1), w1, c, p, r, r')
    ensures GrantTells(w, w1, c, p, r, r')
  {
    hide Shows, Remembers, LegacyKey, Filed;
  }

  // ---- Superseded revisions ----

  lemma RevisedRecord(w: World, c: Connection, r: Record, n: nat)
    requires Get(w.disk.visible, c) == Some(r) && Get(w.disk.durable, c) == Some(r) && w.lanes[c].prior.None?
    requires r.revision == Some(n) && n <= w.ids
    ensures Marked(w, c, Revised(n))
  {}

  lemma NoPriorWhileWriting(g: Ghosts, w: World, c: Connection)
    requires Safe(g, w) && w.lanes[c].lease.Some? && w.lanes[c].lease.value.action in {Refresh, Complete}
    ensures w.lanes[c].prior.None?
  {
    SafeParts(g, w, c);
    hide Synced, Core, Sound;
  }

  lemma ActivationSettlesAs(w: World, c: Connection, lease: Lease, identity: Option<string>)
    requires Settle(w, c, lease, Activate, identity).1.Success?
    ensures lease.slot.Some? && identity.Some? && State(w, c).Some?
    ensures var r' := ActivateRecord(State(w, c).value, c, lease.action, lease.slot.value, identity.value, w.ids);
            var w1 := Settle(w, c, lease, Activate, identity).0;
      && Settle(w, c, lease, Activate, identity).1 == Success(r')
      && Get(w1.disk.visible, c) == Some(r') && Get(w1.disk.durable, c) == Some(r')
      && w1.lanes == w.lanes && w1.ids == w.ids + 1 && w1.abandoned == w.abandoned
  {
    hide ActivateRecord, State, DropRecord, ValidFetch;
  }

  /** A refresh or a sign-in that succeeds leaves no earlier revision anywhere. */
  lemma ActivationRevises(s: System, owner: Owner, c: Connection, ticket: Id, identity: Option<string>)
    requires Sane(s) && Holds(s.world, owner, c, ticket) && s.world.lanes[c].lease.value.action in {Refresh, Complete}
    requires Finish(s.world, owner, c, ticket, Activate, identity).1.Success?
    ensures Marked(Finish(s.world, owner, c, ticket, Activate, identity).0, c, Revised(s.world.ids))
  {
    hide Safe, Queued, Marked, Next, Settle, ActivateRecord, State;
    var w := s.world;
    var w0, lease := WithoutLease(w, c), w.lanes[c].lease.value;
    NoPriorWhileWriting(s.ghosts, w, c);
    ActivationSettlesAs(w0, c, lease, identity);
    var w1 := Settle(w0, c, lease, Activate, identity).0;
    var r' := ActivateRecord(State(w0, c).value, c, lease.action, lease.slot.value, identity.value, w0.ids);
    NewRevision(State(w0, c).value, c, lease.action, lease.slot.value, identity.value, w0.ids);
    RevisedRecord(w1, c, r', w.ids);
    NextMarks(w1, c, c, Revised(w.ids));
  }

  lemma NewRevision(r: Record, c: Connection, action: Action, slot: Slot, identity: string, n: Id)
    ensures ActivateRecord(r, c, action, slot, identity, n).revision == Some(n)
  {}

  predicate QuotesBefore(p: Request, n: nat) {
    p.expected.Some? && (p.expected.value.revision.None? || p.expected.value.revision.value < n)
  }

  /** Wherever every revision is new, no request that quotes an older one is granted. */
  lemma OlderRevisionsAreRefused(g: Ghosts, w: World, c: Connection, n: nat, p: Request)
    requires Safe(g, w) && w.lanes[c].lease.None? && Marked(w, c, Revised(n)) && QuotesBefore(p, n)
    ensures AnsweredWith(w.lanes[c], Attempt(w, c, p).lanes[c], p, w.ids, false, Admitted(w, c, p))
  {
    hide Safe, AnsweredWith;
    StateReadable(g, w, c);
    StateMeets(w, c, Revised(n));
    var r := Ground(w, c).value;
    assert Meets(Some(r), Revised(n));
    assert AnsweredFrom(w, c, r);
    hide Marked, Attempt, Admitted;
    AnswerIff(w, c, p, r);
  }

  /** After a refresh or a sign-in has succeeded, whatever follows, no request that quotes the
      version from before it is ever granted again. */
  lemma SupersededVersionsAreRefused(s: System, owner: Owner, c: Connection, ticket: Id, identity: Option<string>,
      events: seq<Event>, p: Request)
    requires var e := FinishCall(owner, c, ticket, Activate, identity);
      Sane(s) && Allowed(s, e) && Holds(s.world, owner, c, ticket) && Permitted(After(s, e), events)
    requires s.world.lanes[c].lease.value.action in {Refresh, Complete}
    requires Finish(s.world, owner, c, ticket, Activate, identity).1.Success?
    requires State(s.world, c).Some? && p.expected == Some(VersionOf(State(s.world, c).value))
    ensures var w := Run(After(s, FinishCall(owner, c, ticket, Activate, identity)), events).world;
      w.lanes[c].lease.None? ==> AnsweredWith(w.lanes[c], Attempt(w, c, p).lanes[c], p, w.ids, false, Admitted(w, c, p))
  {
    hide Safe, Queued, AnsweredWith, Marked, Finish, Attempt, Admitted, Allowed, Permitted, Run, Recorded, Onward;
    var e := FinishCall(owner, c, ticket, Activate, identity);
    ActivationRevises(s, owner, c, ticket, identity);
    CurrentRevisionIsOlder(s, c);
    EventSane(s, e);
    RunSane(After(s, e), events);
    RunMarks(After(s, e), events, c, Revised(s.world.ids));
    var t := Run(After(s, e), events);
    if t.world.lanes[c].lease.None? { OlderRevisionsAreRefused(t.ghosts, t.world, c, s.world.ids, p); }
  }

  lemma CurrentRevisionIsOlder(s: System, c: Connection)
    requires Sane(s) && State(s.world, c).Some?
    ensures var v := State(s.world, c).value.revision; v.None? || v.value < s.world.ids
  {
    StateSound(s.ghosts, s.world, c);
  }
}
