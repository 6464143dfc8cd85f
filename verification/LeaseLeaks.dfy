/** Two permitted runs that lose a written secret, in the cases that LeaseMemory sets apart. */
module LeaseLeaks {
  import opened Wrappers
  import opened CredentialRecords
  import opened LeaseWorld
  import opened Safety
  import opened LeaseSteps
  import opened LeaseCalls
  import opened LeaseDetach
  import opened LeaseRuns
  import opened LeaseOffers
  import opened LeaseMemory
  import opened LeaseMarks

  /** A quiet connection: both files hold `o`, nobody waits, and every commit to come is saved. */
  ghost predicate Stands(w: World, c: Connection, o: Option<Record>, prior: Option<Record>, n: nat) {
    && Get(w.disk.visible, c) == o && Get(w.disk.durable, c) == o && (o.Some? ==> Readable(o.value))
    && w.ids == n && w.abandoned == {} && w.lanes[c].queue == []
    && w.lanes[c].prior == prior && w.lanes[c].fenced == prior.Some?
    && forall k: nat :: k >= w.disk.commits ==> (w.disk.faults)(k) == Saved
  }

  predicate Leased(w: World, c: Connection, owner: Owner, ticket: Id, action: Action, slot: Option<Slot>) {
    && w.lanes[c].lease.Some?
    && var l := w.lanes[c].lease.value;
       l.owner == owner && l.ticket == ticket && l.action == action && l.fetchTicket.None? && l.slot == slot && l.writable == slot
  }

  // ---- One call at a time ----

  lemma SavedPersist(w: World, c: Connection, o: Option<Record>, prior: Option<Record>, n: nat, m: nat, r: Record)
    requires Stands(w, c, o, prior, n) && Readable(r)
    ensures var (w1, ok) := Persist(w.(ids := m), c, r); ok && Stands(w1, c, Some(r), prior, m) && w1.lanes == w.lanes
  {}

  lemma GrantStands(w: World, c: Connection, p: Request, ticket: Id, slot: Option<Slot>, r: Record, o: Option<Record>,
      n: nat)
    requires Stands(w, c, o, None, n) && p.fetchTicket.None?
    ensures var w1 := Grant(w, c, p, ticket, slot, r);
      && Stands(w1, c, o, None, n) && Leased(w1, c, p.owner, ticket, p.action, slot)
      && (p.action != Delete ==> w1.lanes[c].lease.value.deletable == Elements(Cleanup(r.retired, r, c, slot, w.abandoned)))
  {
    hide Cleanup, ViewOf, Elements, LegacyKey, Get, Readable;
  }

  /** An acquisition on an idle connection is its attempt. */
  lemma AcquireAttempts(w: World, owner: Owner, c: Connection, action: Action, expected: Option<Version>,
      o: Option<Record>, prior: Option<Record>, n: nat)
    requires Stands(w, c, o, prior, n) && w.lanes[c].lease.None?
    ensures var w0 := Put(w, c, w.lanes[c].(arrived := w.lanes[c].arrived + 1));
            var p := Request(owner, action, expected, None, w.lanes[c].arrived);
      && Stands(w0, c, o, prior, n) && w0.lanes[c].lease.None?
      && (Attempt(w0, c, p).lanes[c].lease.Some? ==> Acquire(w, owner, c, action, expected, None) == Attempt(w0, c, p))
  {
    hide Attempt, Get, Readable;
  }

  function GroundOf(o: Option<Record>, prior: Option<Record>): Record { if prior.Some? then prior.value else OrLegacy(o) }

  lemma GroundStands(w: World, c: Connection, o: Option<Record>, prior: Option<Record>, n: nat)
    requires Stands(w, c, o, prior, n)
    ensures Ground(w, c) == Some(GroundOf(o, prior)) && State(w, c) == Some(OrLegacy(o))
  {
    hide Readable;
  }

  lemma ReconnectReads(r: Record, c: Connection, n: Id)
    ensures Readable(ReconnectRecord(r, c, n))
  {
    hide Remember;
  }

  lemma UnfenceStands(w: World, c: Connection, o: Option<Record>, prior: Option<Record>, n: nat)
    requires Stands(w, c, o, prior, n)
    ensures Stands(Unfence(w, c), c, o, None, n)
  {
    hide Get, Readable;
  }

  lemma ReconnectOnStands(w: World, c: Connection, p: Request, ticket: Id, ground: Record, o: Option<Record>,
      prior: Option<Record>, n: nat)
    requires Stands(w, c, o, prior, n) && p.action == Reconnect && p.fetchTicket.None?
    ensures var w1 := AttemptOn(w, c, p, ticket, ground);
      && Stands(w1, c, Some(ReconnectRecord(ground, c, n)), None, n + 4)
      && Leased(w1, c, p.owner, ticket, Reconnect, Some(Minted(c, n + 3)))
  {
    var r := ReconnectRecord(ground, c, n);
    ReconnectReads(ground, c, n);
    LeaseMemory.ReconnectKeeps(ground, c, n, Minted(c, n + 3));
    SavedPersist(w, c, o, prior, n, n + 4, r);
    var w1 := Persist(w.(ids := n + 4), c, r).0;
    UnfenceStands(w1, c, Some(r), prior, n + 4);
    GrantStands(Unfence(w1, c), c, p, ticket, Some(Minted(c, n + 3)), r, Some(r), n + 4);
    assert w.ids == n;
    hide Stands, Leased, ReconnectRecord, Persist, Grant, Unfence;
  }

  lemma ReconnectAttempt(w: World, c: Connection, p: Request)
    requires p.action == Reconnect && p.fetchTicket.None? && p.expected.None? && Ground(w, c).Some?
    ensures Attempt(w, c, p) == AttemptOn(w.(ids := w.ids + 1), c, p, w.ids, Ground(w, c).value)
  {
    hide Ground, AttemptOn, Matches;
  }

  lemma StandsLater(w: World, c: Connection, o: Option<Record>, prior: Option<Record>, n: nat, m: nat)
    requires Stands(w, c, o, prior, n)
    ensures w.ids == n && Stands(w.(ids := m), c, o, prior, m)
  {
    hide Get, Readable;
  }

  lemma ReconnectStands(w: World, owner: Owner, c: Connection, o: Option<Record>, prior: Option<Record>, n: nat)
    requires Stands(w, c, o, prior, n) && w.lanes[c].lease.None?
    ensures var w1 := Acquire(w, owner, c, Reconnect, None, None);
      && Stands(w1, c, Some(ReconnectRecord(GroundOf(o, prior), c, n + 1)), None, n + 5)
      && Leased(w1, c, owner, n, Reconnect, Some(Minted(c, n + 4)))
  {
    hide Stands, Leased, AttemptOn, Attempt, Acquire, Ground, ReconnectRecord, Put, GroundOf;
    var w0 := Put(w, c, w.lanes[c].(arrived := w.lanes[c].arrived + 1));
    var p := Request(owner, Reconnect, None, None, w.lanes[c].arrived);
    AcquireAttempts(w, owner, c, Reconnect, None, o, prior, n);
    GroundStands(w0, c, o, prior, n);
    StandsLater(w0, c, o, prior, n, n + 1);
    ReconnectAttempt(w0, c, p);
    ReconnectOnStands(w0.(ids := n + 1), c, p, n, GroundOf(o, prior), o, prior, n + 1);
    LeasedIs(Attempt(w0, c, p), c, owner, n, Reconnect, Some(Minted(c, n + 4)));
  }

  lemma LeasedIs(w: World, c: Connection, owner: Owner, ticket: Id, action: Action, slot: Option<Slot>)
    requires Leased(w, c, owner, ticket, action, slot)
    ensures w.lanes[c].lease.Some? && Holds(w, owner, c, ticket) && w.lanes[c].lease.value.fetchTicket.None?
  {}

  /** A read, or a completion that quotes the pending sign-in. */
  lemma PlainStands(w: World, owner: Owner, c: Connection, action: Action, expected: Option<Version>, r: Record, n: nat)
    requires Stands(w, c, Some(r), None, n) && w.lanes[c].lease.None?
    requires (action == Read && expected.None?) || (action == Complete && SamePending(r, expected))
    ensures var w1 := Acquire(w, owner, c, action, expected, None);
            var slot := if action == Read then None else r.pendingSlot;
      && Stands(w1, c, Some(r), None, n + 1) && Leased(w1, c, owner, n, action, slot)
      && w1.lanes[c].lease.value.deletable == Elements(Cleanup(r.retired, r, c, slot, {}))
  {
    var w0 := Put(w, c, w.lanes[c].(arrived := w.lanes[c].arrived + 1));
    var p := Request(owner, action, expected, None, w.lanes[c].arrived);
    AcquireAttempts(w, owner, c, action, expected, Some(r), None, n);
    GroundStands(w0, c, Some(r), None, n);
    hide Readable, Acquire, Ground, Grant, Cleanup, Elements, SamePending;
    var slot := if action == Read then None else r.pendingSlot;
    assert Stands(w0.(ids := n + 1), c, Some(r), None, n + 1);
    GrantStands(w0.(ids := n + 1), c, p, n, slot, r, Some(r), n + 1);
    assert Attempt(w0, c, p) == Grant(w0.(ids := n + 1), c, p, n, slot, r);
  }

  lemma LegacyReadStands(w: World, owner: Owner, c: Connection, n: nat)
    requires w.lanes[c] == IdleLane && c !in w.disk.visible
    requires w.ids == n
    ensures var w1 := Acquire(w, owner, c, Read, None, None);
      && Leased(w1, c, owner, n, Read, None) && w1.disk == w.disk && w1.ids == n + 1 && w1.abandoned == w.abandoned
      && w1.lanes[c].queue == [] && !w1.lanes[c].fenced && w1.lanes[c].prior.None?
  {
    hide Cleanup, ViewOf, Elements, LegacyKey;
  }

  lemma ReleaseStands(w: World, owner: Owner, c: Connection, ticket: Id, o: Option<Record>, prior: Option<Record>,
      n: nat)
    requires Stands(w, c, o, prior, n) && Holds(w, owner, c, ticket) && w.lanes[c].lease.value.fetchTicket.None?
    ensures var w1 := Finish(w, owner, c, ticket, Release, None).0; Stands(w1, c, o, prior, n) && w1.lanes[c].lease.None?
  {
    GroundStands(w, c, o, prior, n);
    assert State(WithoutLease(w, c), c) == State(w, c);
    hide Readable, State, Get;
  }

  lemma AcknowledgeStands(w: World, owner: Owner, c: Connection, ticket: Id, cleaned: set<Slot>, r: Record, n: nat)
    requires Stands(w, c, Some(r), None, n) && Holds(w, owner, c, ticket)
    ensures var w1 := AcknowledgeCleanup(w, owner, c, ticket, cleaned).0;
      && Stands(w1, c, Some(r.(retired := Unacknowledged(r.retired, cleaned, r, c, w.lanes[c].lease.value.slot, {}))), None, n)
      && w1.lanes == w.lanes
  {
    GroundStands(w, c, Some(r), None, n);
    hide Unacknowledged;
  }

  lemma ExtendRun(start: System, events: seq<Event>, s: System, e: Event)
    requires Permitted(start, events) && s == Run(start, events) && Allowed(s, e)
    ensures Permitted(start, events + [e]) && Run(start, events + [e]) == After(s, e)
  {
    hide Allowed, After;
    RunsJoin(start, events, [e]);
    OneEvent(s, e);
  }

  // ---- A candidate acknowledged before it was written ----

  function Reliable(): nat -> Fault { _ => Saved }

  function CandidateRecord(c: Connection, n: nat): Record { ReconnectRecord(LegacyState, c, n + 1) }

  function CandidateSlot(c: Connection, n: nat): Slot { Minted(c, n + 4) }

  /** A sign-in starts; a reader is offered its candidate slot, deletes it and acknowledges. */
  function ReaderEvents(c: Connection, n: nat): seq<Event> {
    [AcquireCall("app", c, Reconnect, None, None),
     FinishCall("app", c, n, Release, None),
     AcquireCall("widget", c, Read, None, None),
     ClientDelete("widget", c, n + 5, CandidateSlot(c, n)),
     AcknowledgeCall("widget", c, n + 5, {CandidateSlot(c, n)}),
     FinishCall("widget", c, n + 5, Release, None)]
  }

  /** The sign-in is completed up to its write, not activated, and superseded. */
  function WriterEvents(c: Connection, n: nat, secret: Secret): seq<Event> {
    [AcquireCall("app", c, Complete, Some(VersionOf(CandidateRecord(c, n))), None),
     ClientWrite("app", c, n + 6, secret),
     FinishCall("app", c, n + 6, Release, None),
     AcquireCall("app", c, Reconnect, None, None)]
  }

  lemma CandidateFacts(c: Connection, n: nat)
    ensures var r, slot := CandidateRecord(c, n), CandidateSlot(c, n);
      && Readable(r) && r.mode == Some(Pending) && r.pendingSlot == Some(slot) && slot in r.retired
      && !Guarded(r, c, slot) && slot != LegacyKey(c)
      && r.slot.None? && r.previousSlot.None? && r.generation.Some? && r.revision.Some?
  {
    ReconnectReads(LegacyState, c, n + 1);
    LeaseMemory.ReconnectKeeps(LegacyState, c, n + 1, CandidateSlot(c, n));
    LegacyHome(c);
  }

  /** The record once the reader has acknowledged. */
  function Forgotten(c: Connection, n: nat): Record {
    var r := CandidateRecord(c, n);
    r.(retired := Unacknowledged(r.retired, {CandidateSlot(c, n)}, r, c, None, {}))
  }

  lemma FreshStands(c: Connection, n: nat, secrets: map<Slot, Secret>)
    ensures var w := Fresh(Reliable(), n, secrets).world; Stands(w, c, None, None, n) && w.lanes[c].lease.None?
  {
    IdleAt(c);
  }

  // The same calls as events of a run.

  lemma ReconnectEvent(s: System, owner: Owner, c: Connection, o: Option<Record>, prior: Option<Record>, n: nat)
    requires Stands(s.world, c, o, prior, n) && s.world.lanes[c].lease.None?
    ensures var e := AcquireCall(owner, c, Reconnect, None, None); var s1 := After(s, e);
      && Allowed(s, e) && s1.ghosts == s.ghosts
      && Stands(s1.world, c, Some(ReconnectRecord(GroundOf(o, prior), c, n + 1)), None, n + 5)
      && Leased(s1.world, c, owner, n, Reconnect, Some(Minted(c, n + 4)))
  {
    ReconnectStands(s.world, owner, c, o, prior, n);
    hide Stands, Leased, Acquire, ReconnectRecord, GroundOf;
  }

  lemma PlainEvent(s: System, owner: Owner, c: Connection, action: Action, expected: Option<Version>, r: Record, n: nat)
    requires Stands(s.world, c, Some(r), None, n) && s.world.lanes[c].lease.None?
    requires (action == Read && expected.None?) || (action == Complete && SamePending(r, expected))
    ensures var e := AcquireCall(owner, c, action, expected, None); var s1 := After(s, e);
            var slot := if action == Read then None else r.pendingSlot;
      && Allowed(s, e) && s1.ghosts == s.ghosts && Stands(s1.world, c, Some(r), None, n + 1)
      && Leased(s1.world, c, owner, n, action, slot)
      && s1.world.lanes[c].lease.value.deletable == Elements(Cleanup(r.retired, r, c, slot, {}))
  {
    PlainStands(s.world, owner, c, action, expected, r, n);
    hide Stands, Leased, Acquire, SamePending, Elements, Cleanup;
  }

  lemma ReleaseEvent(s: System, owner: Owner, c: Connection, ticket: Id, action: Action, slot: Option<Slot>,
      o: Option<Record>, prior: Option<Record>, n: nat)
    requires Stands(s.world, c, o, prior, n) && Leased(s.world, c, owner, ticket, action, slot)
    ensures var e := FinishCall(owner, c, ticket, Release, None); var s1 := After(s, e);
      && Allowed(s, e) && s1.ghosts == s.ghosts && Stands(s1.world, c, o, prior, n) && s1.world.lanes[c].lease.None?
  {
    ReleaseStands(s.world, owner, c, ticket, o, prior, n);
    hide Stands, Finish;
  }

  lemma AcknowledgeEvent(s: System, owner: Owner, c: Connection, ticket: Id, cleaned: set<Slot>, r: Record, n: nat)
    requires Stands(s.world, c, Some(r), None, n) && Leased(s.world, c, owner, ticket, Read, None)
    ensures var e := AcknowledgeCall(owner, c, ticket, cleaned); var s1 := After(s, e);
      && Allowed(s, e) && s1.ghosts == s.ghosts && Leased(s1.world, c, owner, ticket, Read, None)
      && Stands(s1.world, c, Some(r.(retired := Unacknowledged(r.retired, cleaned, r, c, None, {}))), None, n)
  {
    AcknowledgeStands(s.world, owner, c, ticket, cleaned, r, n);
    assert c in s.world.disk.visible by { hide Readable; }
    hide Stands, AcknowledgeCleanup, Unacknowledged;
  }

  lemma OfferedDelete(s: System, owner: Owner, c: Connection, ticket: Id, slot: Slot, r: Record, n: nat)
    requires Stands(s.world, c, Some(r), None, n) && Leased(s.world, c, owner, ticket, Read, None)
    requires slot in r.retired && !Guarded(r, c, slot)
    requires s.world.lanes[c].lease.value.deletable == Elements(Cleanup(r.retired, r, c, None, {}))
    ensures var e := ClientDelete(owner, c, ticket, slot); Allowed(s, e) && After(s, e).world == s.world
  {
    CleanupOffers(r.retired, r, c, None, {}, slot);
    hide Stands, Cleanup, Guarded;
    InElements(Cleanup(r.retired, r, c, None, {}), slot);
  }

  lemma ReaderForgets(c: Connection, n: nat, secrets: map<Slot, Secret>)
    ensures var start := Fresh(Reliable(), n, secrets); var s := Run(start, ReaderEvents(c, n));
      && Permitted(start, ReaderEvents(c, n))
      && Stands(s.world, c, Some(Forgotten(c, n)), None, n + 6) && s.world.lanes[c].lease.None?
  {
    var start, slot, r := Fresh(Reliable(), n, secrets), CandidateSlot(c, n), CandidateRecord(c, n);
    FreshStands(c, n, secrets);
    CandidateFacts(c, n);
    NoEvents(start);
    var events := ReaderEvents(c, n);
    hide Fresh, Stands, Run, Permitted, Allowed, After, ReconnectRecord, Guarded, Cleanup, Unacknowledged, Leased, Elements;
    var e0, e1, e2, e3, e4, e5 := events[0], events[1], events[2], events[3], events[4], events[5];
    ReconnectEvent(start, "app", c, None, None, n);
    var s1 := After(start, e0);
    ReleaseEvent(s1, "app", c, n, Reconnect, Some(slot), Some(r), None, n + 5);
    var s2 := After(s1, e1);
    PlainEvent(s2, "widget", c, Read, None, r, n + 5);
    var s3 := After(s2, e2);
    OfferedDelete(s3, "widget", c, n + 5, slot, r, n + 6);
    var s4 := After(s3, e3);
    AcknowledgeEvent(s4, "widget", c, n + 5, {slot}, r, n + 6);
    var s5 := After(s4, e4);
    ReleaseEvent(s5, "widget", c, n + 5, Read, None, Some(Forgotten(c, n)), None, n + 6);
    Literals(e0, e1, e2, e3, e4, e5);
    ExtendRun(start, [], start, e0);
    ExtendRun(start, [e0], s1, e1);
    ExtendRun(start, [e0, e1], s2, e2);
    ExtendRun(start, [e0, e1, e2], s3, e3);
    ExtendRun(start, [e0, e1, e2, e3], s4, e4);
    ExtendRun(start, [e0, e1, e2, e3, e4], s5, e5);
  }

  lemma Literals(a: Event, b: Event, c: Event, d: Event, e: Event, f: Event)
    ensures [] + [a] == [a] && [a] + [b] == [a, b] && [a, b] + [c] == [a, b, c] && [a, b, c] + [d] == [a, b, c, d]
    ensures [a, b, c, d] + [e] == [a, b, c, d, e] && [a, b, c, d, e] + [f] == [a, b, c, d, e, f]
  {}

  lemma NoEvents(s: System)
    ensures Run(s, []) == s && Permitted(s, [])
  {}

  lemma ForgottenFacts(c: Connection, n: nat, m: nat)
    requires m > n + 4
    ensures var r, slot := Forgotten(c, n), CandidateSlot(c, n);
      && SamePending(r, Some(VersionOf(CandidateRecord(c, n)))) && r.pendingSlot == Some(slot)
      && Meets(Some(ReconnectRecord(r, c, m)), Unmentioned(slot))
  {
    var r, slot := CandidateRecord(c, n), CandidateSlot(c, n);
    CandidateFacts(c, n);
    UnacknowledgedSubset(r.retired, {slot}, r, c, None, {}, slot);
    assert slot !in Forgotten(c, n).retired;
    ReconnectListsIff(Forgotten(c, n), c, m, slot);
    hide LegacyKey, Unacknowledged, Retire, Guarded;
  }

  lemma WriteEvent(s: System, owner: Owner, c: Connection, ticket: Id, slot: Slot, secret: Secret)
    requires Leased(s.world, c, owner, ticket, Complete, Some(slot))
    ensures var e := ClientWrite(owner, c, ticket, secret); var s1 := After(s, e);
      && Allowed(s, e) && s1.world == s.world && slot in s1.ghosts.secrets && s1.ghosts.secrets[slot] == secret
  {}

  /** After it the secure store holds the secret, and no record lists or names its slot. */
  lemma AcknowledgedCandidateIsLost(c: Connection, n: nat, secrets: map<Slot, Secret>, secret: Secret)
    ensures var start, events := Fresh(Reliable(), n, secrets), ReaderEvents(c, n) + WriterEvents(c, n, secret);
            var slot := CandidateSlot(c, n);
      && Permitted(start, events)
      && var s := Run(start, events);
         slot in s.ghosts.secrets && s.ghosts.secrets[slot] == secret && Stray(s.world, c, slot)
  {
    hide Fresh, Stands, Run, Permitted, Allowed, After, ReconnectRecord, Forgotten, Leased, ReaderEvents, SamePending,
      Elements, Cleanup, CandidateRecord, Meets, Stray, Reliable;
    var start, slot, r := Fresh(Reliable(), n, secrets), CandidateSlot(c, n), Forgotten(c, n);
    ReaderForgets(c, n, secrets);
    ForgottenFacts(c, n, n + 8);
    var events := WriterEvents(c, n, secret);
    var e0, e1, e2, e3 := events[0], events[1], events[2], events[3];
    var s0 := Run(start, ReaderEvents(c, n));
    NoEvents(s0);
    PlainEvent(s0, "app", c, Complete, Some(VersionOf(CandidateRecord(c, n))), r, n + 6);
    var s1 := After(s0, e0);
    WriteEvent(s1, "app", c, n + 6, slot, secret);
    var s2 := After(s1, e1);
    ReleaseEvent(s2, "app", c, n + 6, Complete, Some(slot), Some(r), None, n + 7);
    var s3 := After(s2, e2);
    ReconnectEvent(s3, "app", c, Some(r), None, n + 7);
    var s4 := After(s3, e3);
    Literals(e0, e1, e2, e3, e0, e0);
    ExtendRun(s0, [], s0, e0);
    ExtendRun(s0, [e0], s1, e1);
    ExtendRun(s0, [e0, e1], s2, e2);
    ExtendRun(s0, [e0, e1, e2], s3, e3);
    RunsJoin(start, ReaderEvents(c, n), events);
    StandsStray(s4.world, c, ReconnectRecord(r, c, n + 8), n + 7, n + 12, slot, Minted(c, n + 11));
  }

  lemma StandsStray(w: World, c: Connection, r: Record, ticket: Id, n: nat, slot: Slot, other: Slot)
    requires Stands(w, c, Some(r), None, n) && Meets(Some(r), Unmentioned(slot))
    requires Leased(w, c, "app", ticket, Reconnect, Some(other)) && slot != other
    requires slot.Minted? && slot.connection == c && slot.id < n
    ensures Stray(w, c, slot)
  {
    hide Readable;
  }

  // ---- A migration whose first commit was refused ----

  /** The first commit is refused and changes nothing; the rest are saved. */
  function FirstRefused(): nat -> Fault { k => if k == 0 then Fault.Lost(false, false) else Saved }

  function MigratedSlot(c: Connection, n: nat): Slot { Minted(c, n + 8) }

  /** A migration is refused, prepared again under the same lease, then written and activated,
      and the connection is signed in anew. */
  function PrepareEvents(c: Connection, n: nat): seq<Event> {
    [AcquireCall("app", c, Read, None, None), PrepareCall("app", c, n), PrepareCall("app", c, n)]
  }

  function ActivateEvents(c: Connection, n: nat, secret: Secret, identity: string): seq<Event> {
    [ClientWrite("app", c, n, secret),
     FinishCall("app", c, n, Activate, Some(identity)),
     AcquireCall("app", c, Reconnect, None, None)]
  }

  /** Like Leased, while the client has not been told the slot. */
  predicate Reading(w: World, c: Connection, ticket: Id, slot: Option<Slot>, writable: Option<Slot>) {
    && w.lanes[c].lease.Some?
    && var l := w.lanes[c].lease.value;
       && l.owner == "app" && l.ticket == ticket && l.action == Read && l.fetchTicket.None? && l.slot == slot
       && l.writable == writable
  }

  lemma ReadEvent(c: Connection, n: nat, secrets: map<Slot, Secret>)
    ensures var s := Fresh(FirstRefused(), n, secrets); var e := AcquireCall("app", c, Read, None, None);
            var w := After(s, e).world;
      && Allowed(s, e) && w.disk == s.world.disk && w.ids == n + 1 && w.abandoned == {} && Reading(w, c, n, None, None)
      && w.lanes[c].queue == [] && !w.lanes[c].fenced && w.lanes[c].prior.None?
  {
    var s := Fresh(FirstRefused(), n, secrets);
    IdleAt(c);
    LegacyReadStands(s.world, "app", c, n);
    hide Acquire;
  }

  lemma RefusedPrepare(w: World, c: Connection, n: nat)
    requires w.disk.visible == w.disk.durable == map[] && w.disk.commits == 0 && w.disk.faults == FirstRefused()
    requires w.ids == n + 1 && w.abandoned == {} && Reading(w, c, n, None, None)
    requires w.lanes[c].queue == [] && !w.lanes[c].fenced && w.lanes[c].prior.None?
    ensures var w1 := PrepareMigration(w, "app", c, n).0;
      Stands(w1, c, None, Some(LegacyState), n + 5) && Reading(w1, c, n, Some(Minted(c, n + 4)), None)
  {
    hide MigrationRecord;
  }

  lemma SavedPrepare(w: World, c: Connection, n: nat, slot: Option<Slot>)
    requires Stands(w, c, None, Some(LegacyState), n + 5) && Reading(w, c, n, slot, None)
    ensures var w1 := PrepareMigration(w, "app", c, n).0; var r := MigrationRecord(LegacyState, c, n + 5);
      && Stands(w1, c, Some(r), Some(LegacyState), n + 9)
      && Reading(w1, c, n, Some(MigratedSlot(c, n)), Some(MigratedSlot(c, n)))
  {
    var r := MigrationRecord(LegacyState, c, n + 5);
    assert Readable(r);
    hide MigrationRecord;
  }

  lemma MigrationFacts(c: Connection, n: nat, identity: string)
    ensures var r := MigrationRecord(LegacyState, c, n + 5);
            var a := ActivateRecord(r, c, Read, MigratedSlot(c, n), identity, n + 9);
      && r.mode == Some(Migration) && Readable(r) && Readable(a) && a.slot == Some(MigratedSlot(c, n))
      && Meets(Some(ReconnectRecord(LegacyState, c, n + 11)), Unmentioned(MigratedSlot(c, n)))
  {
    ReconnectListsIff(LegacyState, c, n + 11, MigratedSlot(c, n));
    LegacyHome(c);
    hide LegacyKey;
  }

  lemma MigrationWritten(s: System, c: Connection, n: nat, slot: Slot, secret: Secret)
    requires Reading(s.world, c, n, Some(slot), Some(slot))
    ensures var e := ClientWrite("app", c, n, secret); var s1 := After(s, e);
      && Allowed(s, e) && s1.world == s.world
      && slot in s1.ghosts.secrets && s1.ghosts.secrets[slot] == secret
      && n in s1.ghosts.wrote && s1.ghosts.wrote[n] == (slot, secret)
  {}

  lemma ActivationSettles(w: World, c: Connection, m: nat, lease: Lease, identity: string, r: Record)
    requires Stands(w, c, Some(r), Some(LegacyState), m) && lease.action == Read && lease.fetchTicket.None?
    requires lease.slot.Some? && |identity| == 64 && r.mode == Some(Migration)
    requires Readable(ActivateRecord(r, c, Read, lease.slot.value, identity, m))
    ensures var (w1, out) := Settle(w, c, lease, Activate, Some(identity));
      && out.Success? && w1.lanes == w.lanes
      && Stands(w1, c, Some(ActivateRecord(r, c, Read, lease.slot.value, identity, m)), Some(LegacyState), m + 1)
  {
    hide Stands, ActivateRecord, State, Persist, DropRecord, Readable;
    GroundStands(w, c, Some(r), Some(LegacyState), m);
    SavedPersist(w, c, Some(r), Some(LegacyState), m, m + 1, ActivateRecord(r, c, Read, lease.slot.value, identity, m));
    StandsLater(w, c, Some(r), Some(LegacyState), m, m);
  }

  lemma MigrationActivated(s: System, c: Connection, n: nat, m: nat, slot: Slot, identity: string, r: Record)
    requires Stands(s.world, c, Some(r), Some(LegacyState), m) && Reading(s.world, c, n, Some(slot), Some(slot))
    requires n in s.ghosts.wrote && s.ghosts.wrote[n].0 == slot && |identity| == 64 && r.mode == Some(Migration)
    requires Readable(ActivateRecord(r, c, Read, slot, identity, m))
    ensures var e := FinishCall("app", c, n, Activate, Some(identity)); var s1 := After(s, e);
      && Allowed(s, e) && Finish(s.world, "app", c, n, Activate, Some(identity)).1.Success?
      && s1.ghosts.secrets == s.ghosts.secrets && s1.world.lanes[c].lease.None?
      && Stands(s1.world, c, Some(ActivateRecord(r, c, Read, slot, identity, m)), Some(LegacyState), m + 1)
  {
    hide ActivateRecord, Readable, Settle;
    var w := s.world;
    var w0, lease := WithoutLease(w, c), w.lanes[c].lease.value;
    assert Stands(w0, c, Some(r), Some(LegacyState), m) by { hide Get; }
    ActivationSettles(w0, c, m, lease, identity, r);
  }

  lemma PrepareEvent(s: System, c: Connection, n: nat)
    ensures var e := PrepareCall("app", c, n);
      Allowed(s, e) && After(s, e).world == PrepareMigration(s.world, "app", c, n).0 && After(s, e).ghosts == s.ghosts
  {
    hide PrepareMigration;
  }

  lemma FreshDisk(n: nat, secrets: map<Slot, Secret>)
    ensures var d := Fresh(FirstRefused(), n, secrets).world.disk;
      d.visible == d.durable == map[] && d.commits == 0 && d.faults == FirstRefused()
  {}

  lemma PreparedRun(c: Connection, n: nat, secrets: map<Slot, Secret>)
    ensures var start, slot := Fresh(FirstRefused(), n, secrets), MigratedSlot(c, n); var s := Run(start, PrepareEvents(c, n));
      && Permitted(start, PrepareEvents(c, n))
      && Stands(s.world, c, Some(MigrationRecord(LegacyState, c, n + 5)), Some(LegacyState), n + 9)
      && Reading(s.world, c, n, Some(slot), Some(slot))
  {
    var start := Fresh(FirstRefused(), n, secrets);
    FreshDisk(n, secrets);
    ReadEvent(c, n, secrets);
    hide Fresh, Stands, Run, Permitted, Allowed, After, Reading, MigrationRecord, PrepareMigration;
    var e0, e1 := PrepareEvents(c, n)[0], PrepareEvents(c, n)[1];
    var s1 := After(start, e0);
    RefusedPrepare(s1.world, c, n);
    PrepareEvent(s1, c, n);
    var s2 := After(s1, e1);
    SavedPrepare(s2.world, c, n, Some(Minted(c, n + 4)));
    PrepareEvent(s2, c, n);
    NoEvents(start);
    Literals(e0, e1, e1, e0, e0, e0);
    ExtendRun(start, [], start, e0);
    ExtendRun(start, [e0], s1, e1);
    ExtendRun(start, [e0, e1], s2, e1);
  }

  /** After it the secret, whose activation had reported success, is in the secure store, and no
      record lists or names its slot. */
  lemma RefusedMigrationIsLost(c: Connection, n: nat, secrets: map<Slot, Secret>, secret: Secret, identity: string)
    requires |identity| == 64
    ensures var start, slot := Fresh(FirstRefused(), n, secrets), MigratedSlot(c, n);
            var events := PrepareEvents(c, n) + ActivateEvents(c, n, secret, identity);
      && Permitted(start, events)
      && Finish(Run(start, events[..4]).world, "app", c, n, Activate, Some(identity)).1.Success?
      && var s := Run(start, events);
         slot in s.ghosts.secrets && s.ghosts.secrets[slot] == secret && Stray(s.world, c, slot)
  {
    hide Fresh, Stands, Run, Permitted, Allowed, After, ReconnectRecord, Reading, MigrationRecord, ActivateRecord, Meets, Finish,
      Readable, PrepareEvents, Leased, Stray, FirstRefused;
    var start, slot, events := Fresh(FirstRefused(), n, secrets), MigratedSlot(c, n), ActivateEvents(c, n, secret, identity);
    var r := MigrationRecord(LegacyState, c, n + 5);
    var a := ActivateRecord(r, c, Read, slot, identity, n + 9);
    PreparedRun(c, n, secrets);
    MigrationFacts(c, n, identity);
    var e0, e1, e2 := events[0], events[1], events[2];
    var s0 := Run(start, PrepareEvents(c, n));
    NoEvents(s0);
    MigrationWritten(s0, c, n, slot, secret);
    var s1 := After(s0, e0);
    MigrationActivated(s1, c, n, n + 9, slot, identity, r);
    var s2 := After(s1, e1);
    ReconnectEvent(s2, "app", c, Some(a), Some(LegacyState), n + 10);
    var s3 := After(s2, e2);
    Literals(e0, e1, e2, e0, e0, e0);
    ExtendRun(s0, [], s0, e0);
    ExtendRun(s0, [e0], s1, e1);
    ExtendRun(s0, [e0, e1], s2, e2);
    RunsJoin(start, PrepareEvents(c, n), events);
    RunsJoin(start, PrepareEvents(c, n), [e0]);
    FirstFour(c, n, secret, identity);
    StandsStray(s3.world, c, ReconnectRecord(LegacyState, c, n + 11), n + 10, n + 15, slot, Minted(c, n + 14));
  }

  lemma FirstFour(c: Connection, n: nat, secret: Secret, identity: string)
    ensures var events := ActivateEvents(c, n, secret, identity);
      |PrepareEvents(c, n) + events| >= 4 && (PrepareEvents(c, n) + events)[..4] == PrepareEvents(c, n) + [events[0]]
  {}
}
