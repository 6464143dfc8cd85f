/** A vanished owner leaves nothing behind: no reservation, no lease, no waiting request; and
    whoever waited for one of them first is answered first. */
module LeaseVanished {
  import opened Wrappers
  import opened CredentialRecords
  import opened LeaseWorld
  import opened LeaseCalls
  import opened LeaseDetach
  import opened LeaseQueue
  import opened LeaseMarks

  // ---- One reservation handed on ----

  /** The reservation passes to the first of `waiting`, under a ticket minted from `n` on; or is
      free, when nobody waits. */
  predicate HandedOn(f: FetchLane, f1: FetchLane, waiting: seq<FetchRequest>, n: nat) {
    && f1.arrived == f.arrived && f1.dropped == f.dropped
    && if waiting == [] then f1.lease.None? && f1.queue == [] && f1.answers == f.answers
       else
         && f1.lease.Some? && f1.lease.value.owner == waiting[0].owner && f1.lease.value.ticket >= n
         && f1.queue == waiting[1..]
         && f1.answers == f.answers + [FetchGranted(waiting[0].number, f1.lease.value.ticket)]
  }

  /** Only the holder's own ticket releases a reservation, and then the first waiting request
      gets it. */
  lemma ReleaseHandsOn(w: World, owner: Owner, c: Connection, ticket: Id)
    ensures var w1, f := ReleaseFetch(w, owner, c, ticket), w.lanes[c].fetch;
      && (forall x :: x != c ==> w1.lanes[x] == w.lanes[x]) && w1.lanes[c] == w.lanes[c].(fetch := w1.lanes[c].fetch)
      && w.ids <= w1.ids && w1.disk == w.disk && w1.abandoned == w.abandoned
      && if f.lease == Some(FetchLease(owner, ticket)) then HandedOn(f, w1.lanes[c].fetch, f.queue, w.ids) else w1 == w
  {
    var f := w.lanes[c].fetch;
    if f.lease == Some(FetchLease(owner, ticket)) && f.queue == [] {
      assert ReleaseFetch(w, owner, c, ticket).lanes[c].fetch == f.(lease := None);
    }
  }

  /** A free reservation is granted at once; a held one is queued for. */
  lemma AcquireFetchAnswers(w: World, owner: Owner, c: Connection)
    ensures var f, f1 := w.lanes[c].fetch, AcquireFetch(w, owner, c).lanes[c].fetch;
            var p := FetchRequest(owner, f.arrived);
      if f.lease.None? then HandedOn(f.(arrived := f.arrived + 1), f1, [p] + f.queue, w.ids)
      else f1 == f.(arrived := f.arrived + 1, queue := f.queue + [p])
  {
    var f := w.lanes[c].fetch;
    assert ([FetchRequest(owner, f.arrived)] + f.queue)[1..] == f.queue;
  }

  // ---- Reservations of a vanished owner ----

  predicate NoFetchOf(f: FetchLane, owner: Owner) {
    && (f.lease.Some? ==> f.lease.value.owner != owner) && forall p :: p in f.queue ==> p.owner != owner
  }

  predicate HeldBy(f: FetchLane, owner: Owner) { f.lease.Some? && f.lease.value.owner == owner }

  lemma {:induction false} DetachFetchesAt(w: World, owner: Owner, order: seq<Connection>, c: Connection)
    requires forall p :: p in w.lanes[c].fetch.queue ==> p.owner != owner
    ensures var w1 := DetachFetches(w, owner, order); var f, f1 := w.lanes[c].fetch, w1.lanes[c].fetch;
      && w.ids <= w1.ids && w1.lanes[c] == w.lanes[c].(fetch := f1) && w1.abandoned == w.abandoned
      && if c in order && HeldBy(f, owner) then HandedOn(f, f1, f.queue, w.ids) && NoFetchOf(f1, owner) else f1 == f
    decreases |order|
  {
    hide ReleaseFetch, HandedOn;
    if order != [] {
      var x := order[0];
      var f := w.lanes[x].fetch.lease;
      var w1 := if f.Some? && f.value.owner == owner then ReleaseFetch(w, owner, x, f.value.ticket) else w;
      if f.Some? {
        ReleaseHandsOn(w, owner, x, f.value.ticket);
        if x == c && f.value.owner == owner { HandedToAnother(w.lanes[c].fetch, w1.lanes[c].fetch, w.ids, owner); }
      }
      DetachFetchesAt(w1, owner, order[1..], c);
      if x != c && HeldBy(w.lanes[c].fetch, owner) && c in order[1..] {
        var f := w.lanes[c].fetch;
        HandedEarlier(f, DetachFetches(w1, owner, order[1..]).lanes[c].fetch, f.queue, w.ids, w1.ids);
      }
    }
  }

  lemma HandedToAnother(f: FetchLane, f1: FetchLane, n: nat, owner: Owner)
    requires HandedOn(f, f1, f.queue, n) && forall p :: p in f.queue ==> p.owner != owner
    ensures NoFetchOf(f1, owner) && !HeldBy(f1, owner)
  {}

  lemma HandedEarlier(f: FetchLane, f1: FetchLane, waiting: seq<FetchRequest>, n: nat, m: nat)
    requires HandedOn(f, f1, waiting, m) && n <= m
    ensures HandedOn(f, f1, waiting, n)
  {}

  /** The requests of the other owners and nothing else, in the order they arrived. */
  ghost predicate OthersFetches(q: seq<FetchRequest>, kept: seq<FetchRequest>, owner: Owner) {
    && (forall p :: p in kept <==> p in q && p.owner != owner) && Ascending(Numbers(kept, FetchNumber))
  }

  ghost predicate OthersRequests(q: seq<Request>, kept: seq<Request>, owner: Owner) {
    && (forall p :: p in kept <==> p in q && p.owner != owner) && Ascending(Numbers(kept, RequestNumber))
  }

  // ---- Answering the queue ----

  /** What answering requests may move: the lane's own lease, queue and answers, and the disk. */
  ghost predicate OwnLane(w: World, w1: World, c: Connection) {
    && (forall x :: x != c ==> w1.lanes[x] == w.lanes[x]) && w1.lanes[c].fetch == w.lanes[c].fetch
    && w1.abandoned == w.abandoned && w.ids <= w1.ids
  }

  lemma PersistRest(w: World, c: Connection, r: Record)
    ensures OwnLane(w, Persist(w, c, r).0, c) && Persist(w, c, r).0.lanes[c].lease == w.lanes[c].lease
  {
    hide Commit;
  }

  lemma GrantRest(w: World, c: Connection, p: Request, ticket: Id, slot: Option<Slot>, r: Record)
    ensures OwnLane(w, Grant(w, c, p, ticket, slot, r), c)
    ensures LeaseOf(Grant(w, c, p, ticket, slot, r).lanes[c].lease, p)
  {
    hide Cleanup, ViewOf, Elements, LegacyKey;
  }

  lemma ReplyRest(w: World, c: Connection, a: Answer)
    ensures OwnLane(w, Reply(w, c, a), c) && Reply(w, c, a).lanes[c].lease == w.lanes[c].lease
  {}

  lemma UnfenceRest(w: World, c: Connection)
    ensures OwnLane(w, Unfence(w, c), c) && Unfence(w, c).lanes[c].lease == w.lanes[c].lease
  {}

  predicate LeaseOf(lease: Option<Lease>, p: Request) {
    lease.Some? && lease.value.owner == p.owner && lease.value.action == p.action
  }

  /** A commit, and then a grant or a refusal. */
  lemma CommittedRest(w: World, w0: World, c: Connection, p: Request, ticket: Id, slot: Option<Slot>, r: Record)
    requires w.lanes[c].lease.None? && w0.lanes == w.lanes && w0.abandoned == w.abandoned && w.ids <= w0.ids
    ensures var w1 := Persist(w0, c, r).0;
            var a, b := Grant(w1, c, p, ticket, slot, r), Grant(Unfence(w1, c), c, p, ticket, slot, r);
            var d := Reply(w1, c, Failed(p.number));
      && OwnLane(w, a, c) && OwnLane(w, b, c) && OwnLane(w, d, c)
      && LeaseOf(a.lanes[c].lease, p) && LeaseOf(b.lanes[c].lease, p) && d.lanes[c].lease.None?
  {
    hide Persist, Grant, Reply, Unfence, LeaseOf;
    PersistRest(w0, c, r);
    var w1 := Persist(w0, c, r).0;
    GrantRest(w1, c, p, ticket, slot, r);
    UnfenceRest(w1, c);
    GrantRest(Unfence(w1, c), c, p, ticket, slot, r);
    ReplyRest(w1, c, Failed(p.number));
  }

  lemma AttemptOnRest(w: World, c: Connection, p: Request, ticket: Id, r: Record)
    requires w.lanes[c].lease.None?
    ensures var w1 := AttemptOn(w, c, p, ticket, r);
      OwnLane(w, w1, c) && (w1.lanes[c].lease.None? || LeaseOf(w1.lanes[c].lease, p))
  {
    hide Persist, Grant, Reply, Unfence, ReconnectRecord, DeleteRecord, RefreshRecord, OwnLane, LeaseOf, Matches;
    ReplyRest(w, c, Failed(p.number));
    match p.action {
      case Reconnect =>
        var r' := ReconnectRecord(r, c, w.ids);
        CommittedRest(w, w.(ids := w.ids + 4), c, p, ticket, r'.pendingSlot, r');
      case Delete => CommittedRest(w, w.(ids := w.ids + 3), c, p, ticket, None, DeleteRecord(r, c, w.ids));
      case Refresh =>
        CommittedRest(w, w.(ids := w.ids + 1), c, p, ticket, Some(Minted(c, w.ids)), RefreshRecord(r, c, w.ids));
      case Read => GrantRest(w, c, p, ticket, None, r);
      case _ => GrantRest(w, c, p, ticket, r.pendingSlot, r);
    }
  }

  lemma AttemptRest(w: World, c: Connection, p: Request)
    requires w.lanes[c].lease.None?
    ensures var w1 := Attempt(w, c, p);
      OwnLane(w, w1, c) && (w1.lanes[c].lease.None? || LeaseOf(w1.lanes[c].lease, p))
  {
    hide AttemptOn, Reply, Ground, LeaseOf, Matches;
    ReplyRest(w, c, Failed(p.number));
    ReplyRest(w, c, Declined(p.number));
    if Ground(w, c).Some? { AttemptOnRest(w.(ids := w.ids + 1), c, p, w.ids, Ground(w, c).value); }
  }

  predicate From(lease: Lease, q: seq<Request>) { exists i :: 0 <= i < |q| && q[i].owner == lease.owner }

  /** The head of the queue is answered first; whoever ends up with the lease waited for it. */
  ghost predicate Served(l: Lane, l1: Lane, q: seq<Request>) {
    && |l.answers| <= |l1.answers| && l1.answers[..|l.answers|] == l.answers
    && (q != [] ==> |l.answers| < |l1.answers| && l1.answers[|l.answers|].request == q[0].number)
    && (l1.lease.Some? ==> From(l1.lease.value, q))
    && (l1.lease.None? ==> l1.queue == []) && forall p :: p in l1.queue ==> p in q
  }

  lemma {:induction false} NextServes(w: World, c: Connection)
    requires w.lanes[c].lease.None?
    ensures OwnLane(w, Next(w, c), c) && Served(w.lanes[c], Next(w, c).lanes[c], w.lanes[c].queue)
    ensures w.lanes[c].queue == [] ==> Next(w, c) == w
    decreases |w.lanes[c].queue|, 0
  {
    hide Start;
    var q := w.lanes[c].queue;
    if q != [] {
      var w1 := Put(w, c, w.lanes[c].(queue := q[1..]));
      StartServes(w1, c, q[0]);
      assert [q[0]] + q[1..] == q;
    }
  }

  lemma {:induction false} StartServes(w: World, c: Connection, p: Request)
    requires w.lanes[c].lease.None?
    ensures OwnLane(w, Start(w, c, p), c) && Served(w.lanes[c], Start(w, c, p).lanes[c], [p] + w.lanes[c].queue)
    decreases |w.lanes[c].queue|, 1
  {
    hide Attempt, Next;
    AttemptAnswers(w, c, p);
    AttemptRest(w, c, p);
    var w1, q := Attempt(w, c, p), w.lanes[c].queue;
    if w1.lanes[c].lease.None? {
      NextServes(w1, c);
      LaterServed(w.lanes[c], w1.lanes[c], Next(w1, c).lanes[c], p, q);
    } else {
      assert ([p] + q)[0].owner == w1.lanes[c].lease.value.owner;
    }
  }

  lemma LaterServed(l: Lane, k: Lane, l1: Lane, p: Request, q: seq<Request>)
    requires Served(k, l1, q) && |k.answers| == |l.answers| + 1 && k.answers[..|l.answers|] == l.answers
    requires k.answers[|l.answers|].request == p.number
    ensures Served(l, l1, [p] + q)
  {
    if l1.lease.Some? {
      var i :| 0 <= i < |q| && q[i].owner == l1.lease.value.owner;
      assert ([p] + q)[i + 1].owner == l1.lease.value.owner;
    }
    assert l1.answers[|l.answers|] == l1.answers[..|k.answers|][|l.answers|];
    assert l1.answers[..|l.answers|] == l1.answers[..|k.answers|][..|l.answers|];
  }

  /** A request waits for a held lease; otherwise it is answered now, and if it is not granted
      so is whoever waits. */
  lemma AcquireServes(w: World, owner: Owner, c: Connection, action: Action, expected: Option<Version>,
      fetchTicket: Option<Id>)
    ensures var l := w.lanes[c]; var p := Request(owner, action, expected, fetchTicket, l.arrived);
            var w0 := w.(lanes := w.lanes[c := l.(arrived := l.arrived + 1)]);
            var w1, w2 := Attempt(w0, c, p), Acquire(w, owner, c, action, expected, fetchTicket);
      if l.lease.Some? then w2 == w.(lanes := w.lanes[c := l.(arrived := l.arrived + 1, queue := l.queue + [p])])
      else Served(l, w2.lanes[c], [p] + l.queue) && w2 == if w1.lanes[c].lease.Some? then w1 else Next(w1, c)
  {
    hide Attempt, Next;
    var l := w.lanes[c];
    var p := Request(owner, action, expected, fetchTicket, l.arrived);
    var w0 := Put(w, c, l.(arrived := l.arrived + 1));
    if l.lease.None? { StartServes(w0, c, p); }
    hide Start;
  }

  /** The queue is taken up from its head, until a request is granted. */
  lemma NextTakesFirst(w: World, c: Connection)
    requires w.lanes[c].lease.None? && w.lanes[c].queue != []
    ensures var q := w.lanes[c].queue;
            var w1 := Attempt(w.(lanes := w.lanes[c := w.lanes[c].(queue := q[1..])]), c, q[0]);
      Next(w, c) == if w1.lanes[c].lease.Some? then w1 else Next(w1, c)
  {
    hide Attempt;
  }

  // ---- Leases of a vanished owner ----

  predicate LeasedBy(l: Lane, owner: Owner) { l.lease.Some? && l.lease.value.owner == owner }

  predicate NoneOf(q: seq<Request>, owner: Owner) { forall i :: 0 <= i < |q| ==> q[i].owner != owner }

  function SlotOf(l: Lane): set<Slot> {
    if l.lease.Some? && l.lease.value.slot.Some? then {l.lease.value.slot.value} else {}
  }

  /** The lease is over, and whoever waited first has an answer. */
  ghost predicate Ended(l: Lane, l1: Lane, owner: Owner) {
    && Served(l, l1, l.queue) && !LeasedBy(l1, owner) && NoneOf(l1.queue, owner)
    && (l.queue == [] ==> l1.lease.None? && l1.answers == l.answers)
  }

  lemma AsideServes(w: World, w1: World, c: Connection, owner: Owner)
    requires w1.lanes[c].lease.None? && w1.lanes[c].queue == w.lanes[c].queue && w1.lanes[c].answers == w.lanes[c].answers
    requires NoneOf(w.lanes[c].queue, owner)
    ensures Ended(w.lanes[c], Next(w1, c).lanes[c], owner) && OwnLane(w1, Next(w1, c), c)
  {
    hide Next;
    NextServes(w1, c);
    forall p | p in Next(w1, c).lanes[c].queue ensures p.owner != owner { assert p in w.lanes[c].queue; }
  }

  /** The world in which the queue is taken up again once a lease has been set aside. */
  function SetAside(w: World, c: Connection): World
    requires w.lanes[c].lease.Some?
  {
    var w1 := Abandon(w, c);
    if w.lanes[c].lease.value.action == Read then w1
    else if State(w1, c).None? then Put(w1, c, w1.lanes[c].(fenced := true))
    else Persist(w1.(ids := w1.ids + 3), c, DetachRecord(State(w1, c).value, w1.ids)).0
  }

  lemma SetAsideRest(w: World, c: Connection)
    requires w.lanes[c].lease.Some?
    ensures var w2 := SetAside(w, c); var l, l2 := w.lanes[c], w2.lanes[c];
      && OwnLane(w.(abandoned := w.abandoned + SlotOf(l)), w2, c)
      && l2.lease.None? && l2.queue == l.queue && l2.answers == l.answers
  {
    hide Persist, State, DetachRecord;
    var w1 := Abandon(w, c);
    if State(w1, c).Some? {
      PersistRest(w1.(ids := w1.ids + 3), c, DetachRecord(State(w1, c).value, w1.ids));
      PersistLane(w1.(ids := w1.ids + 3), c, DetachRecord(State(w1, c).value, w1.ids));
    }
  }

  lemma DetachLeaseResumes(w: World, owner: Owner, c: Connection)
    requires LeasedBy(w.lanes[c], owner)
    ensures DetachLease(w, owner, c) == Next(SetAside(w, c), c)
  {
    DetachLeaseIs(w, owner, c);
    hide Next, Persist, State, DetachRecord, DetachLease, Abandon;
  }

  lemma DetachLeaseEnds(w: World, owner: Owner, c: Connection)
    requires NoneOf(w.lanes[c].queue, owner)
    ensures var w1 := DetachLease(w, owner, c);
      && (forall x :: x != c ==> w1.lanes[x] == w.lanes[x]) && w1.lanes[c].fetch == w.lanes[c].fetch
      && if LeasedBy(w.lanes[c], owner)
         then Ended(w.lanes[c], w1.lanes[c], owner) && w1.abandoned == w.abandoned + SlotOf(w.lanes[c])
         else w1 == w
  {
    NoDetachment(w, owner, c);
    if LeasedBy(w.lanes[c], owner) {
      DetachLeaseResumes(w, owner, c);
      SetAsideRest(w, c);
      hide Next, SetAside, DetachLease, Ended, NoneOf, SlotOf;
      AsideServes(w, SetAside(w, c), c, owner);
    }
  }

  lemma {:induction false} DetachLeasesEnd(w: World, owner: Owner, order: seq<Connection>, c: Connection)
    requires forall x :: NoneOf(w.lanes[x].queue, owner)
    ensures var l, l1 := w.lanes[c], DetachLeases(w, owner, order).lanes[c];
      && l1.fetch == l.fetch && if c in order && LeasedBy(l, owner) then Ended(l, l1, owner) else l1 == l
    decreases |order|
  {
    hide DetachLease, Ended, NoneOf;
    if order != [] {
      var x := order[0];
      var w1 := DetachLease(w, owner, x);
      DetachLeaseEnds(w, owner, x);
      NoneLeft(w.lanes[x], w1.lanes[x], owner);
      DetachLeasesEnd(w1, owner, order[1..], c);
    }
  }

  lemma NoneLeft(l: Lane, l1: Lane, owner: Owner)
    requires NoneOf(l.queue, owner) && (Ended(l, l1, owner) || l1 == l)
    ensures NoneOf(l1.queue, owner) && (Ended(l, l1, owner) ==> !LeasedBy(l1, owner))
  {}

  lemma {:induction false} DetachLeasesAbandon(w: World, owner: Owner, order: seq<Connection>, s: Slot)
    requires forall x :: NoneOf(w.lanes[x].queue, owner)
    ensures s in DetachLeases(w, owner, order).abandoned <==>
      s in w.abandoned || exists c :: c in order && LeasedBy(w.lanes[c], owner) && s in SlotOf(w.lanes[c])
    decreases |order|
  {
    hide DetachLease, Ended, NoneOf, SlotOf;
    if order != [] {
      var x := order[0];
      var w1 := DetachLease(w, owner, x);
      DetachLeaseEnds(w, owner, x);
      NoneLeft(w.lanes[x], w1.lanes[x], owner);
      DetachLeasesAbandon(w1, owner, order[1..], s);
    }
  }

  // ---- The whole detachment ----

  lemma FetchNumbersAscend(f: FetchLane)
    requires OrderlyFetch(f)
    ensures Ascending(Numbers(f.queue, FetchNumber))
  {
    hide Ascending, Numbers;
    LedgerAscends(Numbers(f.answers, FetchAnswerNumber), Numbers(f.queue, FetchNumber), f.arrived, f.dropped);
  }

  lemma NumbersAscend(l: Lane)
    requires Orderly(l)
    ensures Ascending(Numbers(l.queue, RequestNumber))
  {
    hide Ascending, Numbers;
    LedgerAscends(Numbers(l.answers, AnswerNumber), Numbers(l.queue, RequestNumber), l.arrived, l.dropped);
  }

  lemma OthersKept(w: World, owner: Owner, c: Connection) returns (fetches: seq<FetchRequest>, requests: seq<Request>)
    requires Queued(w)
    ensures OthersFetches(w.lanes[c].fetch.queue, fetches, owner) && OthersRequests(w.lanes[c].queue, requests, owner)
    ensures fetches == Without(w.lanes[c].fetch.queue, FetchOwner, owner)
    ensures requests == Without(w.lanes[c].queue, RequestOwner, owner)
  {
    hide Orderly, OrderlyFetch, Without, Ascending, Numbers;
    var l := w.lanes[c];
    fetches, requests := Without(l.fetch.queue, FetchOwner, owner), Without(l.queue, RequestOwner, owner);
    FetchNumbersAscend(l.fetch);
    NumbersAscend(l);
    KeptAscending(l.fetch.queue, FetchOwner, FetchNumber, owner);
    KeptAscending(l.queue, RequestOwner, RequestNumber, owner);
    forall p ensures p in fetches <==> p in l.fetch.queue && p.owner != owner {
      WithoutSubset(l.fetch.queue, FetchOwner, owner, p);
    }
    forall p ensures p in requests <==> p in l.queue && p.owner != owner { WithoutSubset(l.queue, RequestOwner, owner, p); }
  }

  /** The lanes when the owner's leases come up for ending. */
  function BeforeLeases(w: World, owner: Owner, order: seq<Connection>): World {
    DropAllQueues(DetachFetches(DropAllFetchQueues(w, owner), owner, order), owner)
  }

  lemma BeforeLeasesIs(w: World, owner: Owner, order: seq<Connection>, c: Connection)
    requires Queued(w)
    ensures var b, l := BeforeLeases(w, owner, order).lanes[c], w.lanes[c];
      && b.lease == l.lease && b.answers == l.answers && b.queue == Without(l.queue, RequestOwner, owner)
      && NoneOf(b.queue, owner) && BeforeLeases(w, owner, order).abandoned == w.abandoned
      && var f, f1, kept := l.fetch, b.fetch, Without(l.fetch.queue, FetchOwner, owner);
         if c in order && HeldBy(f, owner) then HandedOn(f.(dropped := f1.dropped), f1, kept, w.ids) && NoFetchOf(f1, owner)
         else f1 == f.(queue := kept, dropped := f1.dropped)
  {
    hide Without, Gone, HandedOn, DetachFetches, Queued;
    var a := DropAllFetchQueues(w, owner);
    var fetches, requests := OthersKept(w, owner, c);
    DetachFetchesAt(a, owner, order, c);
    HandedDropped(w.lanes[c].fetch, a.lanes[c].fetch, DetachFetches(a, owner, order).lanes[c].fetch, fetches, w.ids);
  }

  lemma HandedDropped(f: FetchLane, g: FetchLane, f1: FetchLane, kept: seq<FetchRequest>, n: nat)
    requires g.arrived == f.arrived && g.answers == f.answers
    ensures HandedOn(g, f1, kept, n) ==> HandedOn(f.(dropped := f1.dropped), f1, kept, n)
  {}

  /** What becomes of one connection when `owner` vanishes: nothing of that owner is left, its
      reservation and its lease pass to those who waited, in order. */
  lemma DetachClears(w: World, owner: Owner, order: seq<Connection>, c: Connection)
    returns (fetches: seq<FetchRequest>, requests: seq<Request>)
    requires Queued(w) && c in order
    ensures OthersFetches(w.lanes[c].fetch.queue, fetches, owner) && OthersRequests(w.lanes[c].queue, requests, owner)
    ensures var l, l1 := w.lanes[c], Detach(w, owner, order).lanes[c]; var f, f1 := l.fetch, l1.fetch;
      && !LeasedBy(l1, owner) && NoneOf(l1.queue, owner) && NoFetchOf(f1, owner)
      && (if HeldBy(f, owner) then HandedOn(f.(dropped := f1.dropped), f1, fetches, w.ids)
          else f1 == f.(queue := fetches, dropped := f1.dropped))
      && if LeasedBy(l, owner) then Ended(l.(queue := requests), l1, owner)
         else l1.lease == l.lease && l1.queue == requests && l1.answers == l.answers
  {
    fetches, requests := OthersKept(w, owner, c);
    forall x ensures NoneOf(BeforeLeases(w, owner, order).lanes[x].queue, owner) { BeforeLeasesIs(w, owner, order, x); }
    BeforeLeasesIs(w, owner, order, c);
    hide Without, HandedOn, BeforeLeases, Queued, DetachLeases, NoneOf, OthersFetches, OthersRequests, DropAllQueues,
      DetachFetches, DropAllFetchQueues;
    DetachLeasesEnd(BeforeLeases(w, owner, order), owner, order, c);
    DetachIs(w, owner, order);
    EndedLike(BeforeLeases(w, owner, order).lanes[c], w.lanes[c], Detach(w, owner, order).lanes[c], requests, owner);
    hide Detach;
    OthersLeft(w.lanes[c].fetch, fetches, Detach(w, owner, order).lanes[c].fetch, owner);
  }

  lemma OthersLeft(f: FetchLane, kept: seq<FetchRequest>, f1: FetchLane, owner: Owner)
    requires OthersFetches(f.queue, kept, owner)
    ensures !HeldBy(f, owner) && f1 == f.(queue := kept, dropped := f1.dropped) ==> NoFetchOf(f1, owner)
  {}

  lemma DetachIs(w: World, owner: Owner, order: seq<Connection>)
    ensures Detach(w, owner, order) == DetachLeases(BeforeLeases(w, owner, order), owner, order)
  {}

  lemma EndedLike(b: Lane, l: Lane, l1: Lane, requests: seq<Request>, owner: Owner)
    requires b.answers == l.answers && b.queue == requests
    ensures Ended(b, l1, owner) ==> Ended(l.(queue := requests), l1, owner) && !LeasedBy(l1, owner) && NoneOf(l1.queue, owner)
  {}

  /** Exactly the slots its holders might have written are abandoned. */
  lemma DetachAbandonsIff(w: World, owner: Owner, order: seq<Connection>, s: Slot)
    requires Queued(w)
    ensures s in Detach(w, owner, order).abandoned <==>
      s in w.abandoned || exists c :: c in order && LeasedBy(w.lanes[c], owner) && s in SlotOf(w.lanes[c])
  {
    var b := BeforeLeases(w, owner, order);
    forall x ensures NoneOf(b.lanes[x].queue, owner) && b.lanes[x].lease == w.lanes[x].lease && b.abandoned == w.abandoned {
      BeforeLeasesIs(w, owner, order, x);
    }
    hide BeforeLeases, DetachLeases, Queued, NoneOf;
    DetachLeasesAbandon(b, owner, order, s);
    DetachIs(w, owner, order);
    hide SlotOf;
    forall c ensures LeasedBy(b.lanes[c], owner) == LeasedBy(w.lanes[c], owner) && SlotOf(b.lanes[c]) == SlotOf(w.lanes[c]) {
      SameSlot(b.lanes[c], w.lanes[c]);
    }
  }

  lemma SameSlot(a: Lane, b: Lane)
    requires a.lease == b.lease
    ensures SlotOf(a) == SlotOf(b)
  {}
}
