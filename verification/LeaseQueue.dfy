/** First come, first served: every request is answered once, still queued, or dropped with
    its owner, and a waiting request implies a held lease. */
module LeaseQueue {
  import opened Wrappers
  import opened CredentialRecords
  import opened LeaseWorld
  import opened LeaseCalls
  import opened LeaseDetach

  // ---- The ledger of one queue ----

  ghost predicate Ascending(s: seq<nat>) { forall i, j :: 0 <= i < j < |s| ==> s[i] < s[j] }

  /** `track` lists the answered requests in answer order, then the queued ones. */
  ghost predicate Ledger(track: seq<nat>, arrived: nat, dropped: set<nat>) {
    && Ascending(track)
    && (forall k: nat :: k < arrived <==> k in track || k in dropped)
    && (forall k :: k in dropped ==> k !in track)
  }

  function Numbers<T>(q: seq<T>, numberOf: T -> nat): (s: seq<nat>)
    ensures |s| == |q| && forall i :: 0 <= i < |s| ==> s[i] == numberOf(q[i])
  {
    seq(|q|, i requires 0 <= i < |q| => numberOf(q[i]))
  }

  lemma NumbersJoin<T>(a: seq<T>, b: seq<T>, numberOf: T -> nat)
    ensures Numbers(a + b, numberOf) == Numbers(a, numberOf) + Numbers(b, numberOf)
  {}

  function AnswerNumber(a: Answer): nat { a.request }
  function FetchAnswerNumber(a: FetchAnswer): nat { a.request }

  function Track(l: Lane): seq<nat> { Numbers(l.answers, AnswerNumber) + Numbers(l.queue, RequestNumber) }

  function FetchTrack(f: FetchLane): seq<nat> {
    Numbers(f.answers, FetchAnswerNumber) + Numbers(f.queue, FetchNumber)
  }

  ghost predicate Orderly(l: Lane) { Ledger(Track(l), l.arrived, l.dropped) }

  ghost predicate OrderlyFetch(f: FetchLane) {
    && Ledger(FetchTrack(f), f.arrived, f.dropped)
    && (f.lease.None? ==> f.queue == [])
  }

  ghost predicate Queued(w: World) {
    forall c :: Orderly(w.lanes[c]) && (w.lanes[c].lease.None? ==> w.lanes[c].queue == []) && OrderlyFetch(w.lanes[c].fetch)
  }

  lemma LedgerGrows(track: seq<nat>, arrived: nat, dropped: set<nat>)
    requires Ledger(track, arrived, dropped)
    ensures Ledger(track + [arrived], arrived + 1, dropped)
  {
    assert forall i :: 0 <= i < |track| ==> track[i] in track;
    forall k: nat ensures k < arrived + 1 <==> k in track + [arrived] || k in dropped {}
  }

  lemma LedgerDrops(track: seq<nat>, kept: seq<nat>, arrived: nat, dropped: set<nat>, gone: set<nat>)
    requires Ledger(track, arrived, dropped) && Ascending(kept)
    requires forall k :: k in kept <==> k in track && k !in gone
    requires forall k :: k in gone ==> k in track
    ensures Ledger(kept, arrived, dropped + gone)
  {}

  // ---- Credential requests ----

  /** Outside fencing and the lease, a commit leaves the lane alone. */
  lemma PersistLane(w: World, c: Connection, r: Record)
    ensures var w1 := Persist(w, c, r).0;
      && w1.lanes[c] == w.lanes[c].(fenced := w1.lanes[c].fenced, prior := w1.lanes[c].prior)
      && forall x :: x != c ==> w1.lanes[x] == w.lanes[x]
  {}

  ghost predicate Answered(w: World, w1: World, c: Connection, number: nat) {
    var l, l1 := w.lanes[c], w1.lanes[c];
    && |l1.answers| == |l.answers| + 1 && l1.answers[..|l.answers|] == l.answers
    && l1.answers[|l.answers|].request == number
    && l1.queue == l.queue && l1.arrived == l.arrived && l1.dropped == l.dropped && l1.fetch == l.fetch
    && forall x :: x != c ==> w1.lanes[x] == w.lanes[x]
  }

  lemma GrantAnswers(w: World, w0: World, c: Connection, p: Request, ticket: Id, slot: Option<Slot>, r: Record)
    requires forall x :: x != c ==> w0.lanes[x] == w.lanes[x]
    requires var l := w0.lanes[c]; l == w.lanes[c].(fenced := l.fenced, prior := l.prior)
    ensures Answered(w, Grant(w0, c, p, ticket, slot, r), c, p.number)
  {
    hide Cleanup, ViewOf, Elements;
  }

  lemma ReplyAnswers(w: World, w0: World, c: Connection, a: Answer)
    requires forall x :: x != c ==> w0.lanes[x] == w.lanes[x]
    requires var l := w0.lanes[c]; l == w.lanes[c].(fenced := l.fenced, prior := l.prior)
    ensures Answered(w, Reply(w0, c, a), c, a.request)
  {}

  lemma AttemptOnAnswers(w: World, c: Connection, p: Request, ticket: Id, r: Record)
    ensures Answered(w, AttemptOn(w, c, p, ticket, r), c, p.number)
  {
    hide Persist, Grant, Reply, Answered, ReconnectRecord, DeleteRecord, RefreshRecord;
    match p.action {
      case Reconnect =>
        var r' := ReconnectRecord(r, c, w.ids);
        PersistLane(w.(ids := w.ids + 4), c, r');
        var w1 := Persist(w.(ids := w.ids + 4), c, r').0;
        GrantAnswers(w, Unfence(w1, c), c, p, ticket, r'.pendingSlot, r');
        ReplyAnswers(w, w1, c, Failed(p.number));
      case Delete =>
        var r' := DeleteRecord(r, c, w.ids);
        PersistLane(w.(ids := w.ids + 3), c, r');
        var w1 := Persist(w.(ids := w.ids + 3), c, r').0;
        GrantAnswers(w, w1, c, p, ticket, None, r');
        ReplyAnswers(w, w1, c, Failed(p.number));
      case Refresh =>
        var r' := RefreshRecord(r, c, w.ids);
        PersistLane(w.(ids := w.ids + 1), c, r');
        var w1 := Persist(w.(ids := w.ids + 1), c, r').0;
        GrantAnswers(w, w1, c, p, ticket, Some(Minted(c, w.ids)), r');
        ReplyAnswers(w, w1, c, Failed(p.number));
        ReplyAnswers(w, w, c, Failed(p.number));
      case _ =>
        GrantAnswers(w, w, c, p, ticket, r.pendingSlot, r);
        GrantAnswers(w, w, c, p, ticket, None, r);
        ReplyAnswers(w, w, c, Failed(p.number));
    }
  }

  lemma AttemptAnswers(w: World, c: Connection, p: Request)
    ensures Answered(w, Attempt(w, c, p), c, p.number)
  {
    hide AttemptOn, Reply, Ground;
    ReplyAnswers(w, w, c, Failed(p.number));
    ReplyAnswers(w, w, c, Declined(p.number));
    if Ground(w, c).Some? { AttemptOnAnswers(w.(ids := w.ids + 1), c, p, w.ids, Ground(w, c).value); }
  }

  /** Answering the head of the queue moves one number from the queue to the answers. */
  lemma AnswerKeepsTrack(w: World, w1: World, c: Connection, p: Request)
    requires Answered(w, w1, c, p.number)
    ensures Track(w1.lanes[c]) == Track(w.lanes[c].(queue := [p] + w.lanes[c].queue))
  {
    var l, l1 := w.lanes[c], w1.lanes[c];
    NumbersJoin(l.answers, [l1.answers[|l.answers|]], AnswerNumber);
    NumbersJoin([p], l.queue, RequestNumber);
    assert l1.answers == l.answers + [l1.answers[|l.answers|]];
    assert Numbers([l1.answers[|l.answers|]], AnswerNumber) == [p.number] == Numbers([p], RequestNumber);
  }

  /** Draining ends with a lease, or with nobody waiting, and keeps the books. */
  ghost predicate Drained(w: World, c: Connection, before: World) {
    && Orderly(w.lanes[c]) && (w.lanes[c].lease.None? ==> w.lanes[c].queue == [])
    && w.lanes[c].fetch == before.lanes[c].fetch
    && forall x :: x != c ==> w.lanes[x] == before.lanes[x]
  }

  lemma {:induction false} NextDrains(w: World, c: Connection)
    requires Orderly(w.lanes[c]) && w.lanes[c].lease.None?
    ensures Drained(Next(w, c), c, w)
    decreases |w.lanes[c].queue|, 0
  {
    hide Start, Orderly;
    var q := w.lanes[c].queue;
    if q != [] {
      var w1 := Put(w, c, w.lanes[c].(queue := q[1..]));
      assert [q[0]] + q[1..] == q;
      assert w1.lanes[c].(queue := [q[0]] + w1.lanes[c].queue) == w.lanes[c];
      StartDrains(w1, c, q[0]);
    }
  }

  lemma {:induction false} StartDrains(w: World, c: Connection, p: Request)
    requires Orderly(w.lanes[c].(queue := [p] + w.lanes[c].queue)) && w.lanes[c].lease.None?
    ensures Drained(Start(w, c, p), c, w)
    decreases |w.lanes[c].queue|, 1
  {
    hide Attempt, Next, Ledger;
    AttemptAnswers(w, c, p);
    var w1 := Attempt(w, c, p);
    AnswerKeepsTrack(w, w1, c, p);
    if w1.lanes[c].lease.None? { NextDrains(w1, c); }
  }

  lemma AcquireQueues(w: World, owner: Owner, c: Connection, action: Action, expected: Option<Version>,
      fetchTicket: Option<Id>)
    requires Queued(w)
    ensures Queued(Acquire(w, owner, c, action, expected, fetchTicket))
  {
    hide Start, Ledger, OrderlyFetch;
    var l := w.lanes[c];
    assert Orderly(l);
    var p := Request(owner, action, expected, fetchTicket, l.arrived);
    LedgerGrows(Track(l), l.arrived, l.dropped);
    NumbersJoin(l.queue, [p], RequestNumber);
    assert Numbers([p], RequestNumber) == [l.arrived];
    assert Numbers(l.answers, AnswerNumber) + (Numbers(l.queue, RequestNumber) + [l.arrived]) == Track(l) + [l.arrived];
    if l.lease.None? {
      var w1 := Put(w, c, l.(arrived := l.arrived + 1));
      assert [p] + l.queue == l.queue + [p];
      StartDrains(w1, c, p);
    }
  }

  lemma DrainedQueued(w: World, w1: World, w2: World, c: Connection)
    requires Queued(w) && Drained(w2, c, w1)
    requires forall x :: x != c ==> w1.lanes[x] == w.lanes[x]
    requires w1.lanes[c].fetch == w.lanes[c].fetch
    ensures Queued(w2)
  {
    hide Orderly, OrderlyFetch;
  }

  lemma FinishQueues(w: World, owner: Owner, c: Connection, ticket: Id, operation: Operation, identity: Option<string>)
    requires Queued(w)
    ensures Queued(Finish(w, owner, c, ticket, operation, identity).0)
  {
    if Holds(w, owner, c, ticket) {
      assert Orderly(w.lanes[c]);
      hide Next, Settle, Ledger, OrderlyFetch, Queued, Drained, Numbers;
      var w0 := WithoutLease(w, c);
      var lease := w.lanes[c].lease.value;
      SettleLane(w0, c, lease, operation, identity);
      SettleElsewhere(w0, c, lease, operation, identity);
      var w1 := Settle(w0, c, lease, operation, identity).0;
      NextDrains(w1, c);
      DrainedQueued(w, w1, Next(w1, c), c);
    }
  }

  lemma SettleElsewhere(w: World, c: Connection, lease: Lease, operation: Operation, identity: Option<string>)
    ensures forall x :: x != c ==> Settle(w, c, lease, operation, identity).0.lanes[x] == w.lanes[x]
  {
    if State(w, c).Some? {
      SettleShape(w, c, lease, operation, identity);
      hide DropRecord, ActivateRecord, CancelRecord, State, Persist, Settle;
      var r := State(w, c).value;
      PersistLane(w.(ids := w.ids + 3), c, DropRecord(r, w.ids));
      PersistLane(w, c, CancelRecord(r));
      if lease.slot.Some? && identity.Some? {
        PersistLane(w.(ids := w.ids + 1), c, ActivateRecord(r, c, lease.action, lease.slot.value, identity.value, w.ids));
      }
    }
  }

  /** A call that keeps every lane's books, leases' presence and reservations. */
  lemma QuietQueues(w: World, w1: World)
    requires Queued(w)
    requires forall x :: w1.lanes[x].answers == w.lanes[x].answers && w1.lanes[x].queue == w.lanes[x].queue
                      && w1.lanes[x].arrived == w.lanes[x].arrived && w1.lanes[x].dropped == w.lanes[x].dropped
                      && w1.lanes[x].fetch == w.lanes[x].fetch && w1.lanes[x].lease.Some? == w.lanes[x].lease.Some?
    ensures Queued(w1)
  {
    hide Ledger, OrderlyFetch;
    forall x ensures Orderly(w1.lanes[x]) && (w1.lanes[x].lease.None? ==> w1.lanes[x].queue == []) && OrderlyFetch(w1.lanes[x].fetch) {
      assert Orderly(w.lanes[x]);
      assert Track(w1.lanes[x]) == Track(w.lanes[x]);
    }
  }

  lemma MigrateQueues(w: World, owner: Owner, c: Connection, ticket: Id)
    requires Queued(w)
    ensures Queued(PrepareMigration(w, owner, c, ticket).0)
  {
    hide Queued, State, MigrationRecord, ValidBackup, Persist, PrepareMigration;
    var w2 := PrepareMigration(w, owner, c, ticket).0;
    if w2 != w {
      MigrateShape(w, owner, c, ticket);
      var r := State(w, c).value;
      PersistLane(WithoutLease(w, c).(ids := w.ids + MigrationIds(r)), c, MigrationRecord(r, c, w.ids));
      QuietQueues(w, w2);
    }
  }

  // ---- Reservations ----

  lemma StartFetchTrack(w: World, c: Connection, p: FetchRequest)
    ensures var f, f1 := w.lanes[c].fetch, StartFetch(w, c, p).lanes[c].fetch;
      && FetchTrack(f1) == FetchTrack(f.(queue := [p] + f.queue)) && f1.lease.Some?
      && f1.arrived == f.arrived && f1.dropped == f.dropped && f1.queue == f.queue
  {
    var f, f1 := w.lanes[c].fetch, StartFetch(w, c, p).lanes[c].fetch;
    var a := FetchGranted(p.number, w.ids);
    NumbersJoin(f.answers, [a], FetchAnswerNumber);
    NumbersJoin([p], f.queue, FetchNumber);
    assert Numbers([a], FetchAnswerNumber) == [p.number] == Numbers([p], FetchNumber);
  }

  /** Only the reservation part of one lane moved. */
  lemma FetchQueues(w: World, w1: World, c: Connection)
    requires Queued(w) && OrderlyFetch(w1.lanes[c].fetch)
    requires forall x :: w1.lanes[x] == w.lanes[x].(fetch := w1.lanes[x].fetch)
    requires forall x :: x != c ==> w1.lanes[x] == w.lanes[x]
    ensures Queued(w1)
  {
    hide Ledger, OrderlyFetch;
    forall x ensures Orderly(w1.lanes[x]) && (w1.lanes[x].lease.None? ==> w1.lanes[x].queue == []) && OrderlyFetch(w1.lanes[x].fetch) {
      assert Orderly(w.lanes[x]);
      assert Track(w1.lanes[x]) == Track(w.lanes[x]);
    }
  }

  lemma AcquireFetchQueues(w: World, owner: Owner, c: Connection)
    requires Queued(w)
    ensures Queued(AcquireFetch(w, owner, c))
  {
    hide Queued, FetchTrack, Ledger, StartFetch;
    QueuedFetch(w, c);
    var f := w.lanes[c].fetch;
    var p := FetchRequest(owner, f.arrived);
    FetchJoins(f, p);
    assert f.lease.None? ==> f.queue == [];
    hide OrderlyFetch;
    if f.lease.None? { FreeFetchQueues(w, c, p); } else { BusyFetchQueues(w, owner, c, p); }
  }

  lemma BusyFetchQueues(w: World, owner: Owner, c: Connection, p: FetchRequest)
    requires var f := w.lanes[c].fetch;
      Queued(w) && f.lease.Some? && p == FetchRequest(owner, f.arrived)
      && Ledger(FetchTrack(f.(queue := f.queue + [p])), f.arrived + 1, f.dropped)
    ensures Queued(AcquireFetch(w, owner, c))
  {
    var f := w.lanes[c].fetch;
    var joined := f.(arrived := f.arrived + 1, queue := f.queue + [p]);
    TrackIgnoresCount(f.(queue := f.queue + [p]), f.arrived + 1);
    assert joined == f.(queue := f.queue + [p]).(arrived := f.arrived + 1);
    hide Queued, FetchTrack, Ledger, OrderlyFetch;
    LeasedOrderly(joined);
    var w1 := AcquireFetch(w, owner, c);
    assert w1.lanes[c] == w.lanes[c].(fetch := joined);
    FetchQueues(w, w1, c);
  }

  lemma LeasedOrderly(f: FetchLane)
    requires Ledger(FetchTrack(f), f.arrived, f.dropped) && f.lease.Some?
    ensures OrderlyFetch(f)
  {
    hide Ledger, FetchTrack;
  }

  lemma FreeFetchQueues(w: World, c: Connection, p: FetchRequest)
    requires var f := w.lanes[c].fetch;
      Queued(w) && f.queue == [] && Ledger(FetchTrack(f.(queue := f.queue + [p])), f.arrived + 1, f.dropped)
    ensures Queued(StartFetch(Put(w, c, w.lanes[c].(fetch := w.lanes[c].fetch.(arrived := w.lanes[c].fetch.arrived + 1))), c, p))
  {
    var f := w.lanes[c].fetch;
    var w1 := Put(w, c, w.lanes[c].(fetch := f.(arrived := f.arrived + 1)));
    StartFetchTrack(w1, c, p);
    StartFetchShape(w1, c, p);
    assert [p] + f.queue == f.queue + [p];
    assert f.(arrived := f.arrived + 1).(queue := [p] + f.queue) == f.(queue := f.queue + [p]).(arrived := f.arrived + 1);
    TrackIgnoresCount(f.(queue := f.queue + [p]), f.arrived + 1);
    hide Queued, FetchTrack, Ledger, StartFetch, OrderlyFetch;
    var w2 := StartFetch(w1, c, p);
    LeasedOrderly(w2.lanes[c].fetch);
    forall x ensures w2.lanes[x] == w.lanes[x].(fetch := w2.lanes[x].fetch) && (x != c ==> w2.lanes[x] == w.lanes[x]) {}
    FetchQueues(w, w2, c);
  }

  lemma TrackIgnoresCount(f: FetchLane, n: nat)
    ensures FetchTrack(f.(arrived := n)) == FetchTrack(f)
  {}

  lemma StartFetchShape(w: World, c: Connection, p: FetchRequest)
    ensures var w1 := StartFetch(w, c, p);
      (forall x :: w1.lanes[x] == w.lanes[x].(fetch := w1.lanes[x].fetch)) && forall x :: x != c ==> w1.lanes[x] == w.lanes[x]
  {}

  lemma FetchJoins(f: FetchLane, p: FetchRequest)
    requires OrderlyFetch(f) && p.number == f.arrived
    ensures Ledger(FetchTrack(f.(queue := f.queue + [p])), f.arrived + 1, f.dropped)
  {
    LedgerGrows(FetchTrack(f), f.arrived, f.dropped);
    NumbersJoin(f.queue, [p], FetchNumber);
    assert Numbers([p], FetchNumber) == [f.arrived];
    assert FetchTrack(f.(queue := f.queue + [p])) == FetchTrack(f) + [f.arrived];
  }

  lemma QueuedFetch(w: World, c: Connection)
    requires Queued(w)
    ensures OrderlyFetch(w.lanes[c].fetch)
  {
    hide OrderlyFetch;
  }

  lemma ReleaseFetchQueues(w: World, owner: Owner, c: Connection, ticket: Id)
    requires Queued(w)
    ensures Queued(ReleaseFetch(w, owner, c, ticket))
    ensures forall x :: ReleaseFetch(w, owner, c, ticket).lanes[x].lease == w.lanes[x].lease
  {
    hide Ledger, Orderly, Queued;
    if ValidFetch(w, owner, c, ticket) {
      QueuedFetch(w, c);
      var f := w.lanes[c].fetch;
      if f.queue != [] {
        assert [f.queue[0]] + f.queue[1..] == f.queue;
        StartFetchTrack(Put(w, c, w.lanes[c].(fetch := f.(lease := None, queue := f.queue[1..]))), c, f.queue[0]);
      }
      FetchQueues(w, ReleaseFetch(w, owner, c, ticket), c);
    }
  }

  // ---- A vanishing owner ----

  lemma {:induction false} KeptAscending<T>(q: seq<T>, ownerOf: T -> Owner, numberOf: T -> nat, owner: Owner)
    requires Ascending(Numbers(q, numberOf))
    ensures Ascending(Numbers(Without(q, ownerOf, owner), numberOf))
  {
    if q != [] {
      var t, rest := q[1..], Without(q[1..], ownerOf, owner);
      NumbersJoin([q[0]], t, numberOf);
      assert [q[0]] + t == q;
      TailAscending(Numbers([q[0]], numberOf), Numbers(t, numberOf));
      KeptAscending(t, ownerOf, numberOf, owner);
      if ownerOf(q[0]) != owner {
        NumbersJoin([q[0]], rest, numberOf);
        forall j | 0 <= j < |rest| ensures numberOf(q[0]) < numberOf(rest[j]) {
          WithoutSubset(t, ownerOf, owner, rest[j]);
          var i :| 0 <= i < |t| && t[i] == rest[j];
          assert Numbers(q, numberOf)[0] < Numbers(q, numberOf)[i + 1];
        }
      }
    }
  }

  /** Every queued number is either kept or gone, never both. */
  lemma KeptOrGone<T>(q: seq<T>, ownerOf: T -> Owner, numberOf: T -> nat, owner: Owner, k: nat)
    requires Ascending(Numbers(q, numberOf))
    ensures var kept, gone := Numbers(Without(q, ownerOf, owner), numberOf), Gone(q, ownerOf, numberOf, owner);
      && (k in kept ==> k in Numbers(q, numberOf) && k !in gone)
      && (k in Numbers(q, numberOf) ==> k in kept || k in gone)
      && (k in gone ==> k in Numbers(q, numberOf))
  {
    var rest := Without(q, ownerOf, owner);
    hide Without;
    if k in Numbers(rest, numberOf) {
      var j :| 0 <= j < |rest| && numberOf(rest[j]) == k;
      WithoutSubset(q, ownerOf, owner, rest[j]);
      var i :| 0 <= i < |q| && q[i] == rest[j];
      assert Numbers(q, numberOf)[i] == k;
      forall m | 0 <= m < |q| && numberOf(q[m]) == k ensures m == i { assert Numbers(q, numberOf)[m] == k; }
    }
    if k in Numbers(q, numberOf) {
      var i :| 0 <= i < |q| && numberOf(q[i]) == k;
      WithoutSubset(q, ownerOf, owner, q[i]);
      if ownerOf(q[i]) != owner {
        var j :| 0 <= j < |rest| && rest[j] == q[i];
        assert Numbers(rest, numberOf)[j] == k;
      }
    }
    if k in Gone(q, ownerOf, numberOf, owner) {
      var i :| 0 <= i < |q| && ownerOf(q[i]) == owner && numberOf(q[i]) == k;
      assert Numbers(q, numberOf)[i] == k;
    }
  }

  /** Removing some queued numbers and recording them as dropped balances the books. */
  lemma DropBalances(done: seq<nat>, queue: seq<nat>, kept: seq<nat>, gone: set<nat>, arrived: nat, dropped: set<nat>)
    requires Ledger(done + queue, arrived, dropped) && Ascending(kept)
    requires forall k :: k in kept ==> k in queue && k !in gone
    requires forall k :: k in queue ==> k in kept || k in gone
    requires forall k :: k in gone ==> k in queue
    ensures Ledger(done + kept, arrived, dropped + gone)
  {
    var track, left := done + queue, done + kept;
    forall i, j | 0 <= i < |done| && 0 <= j < |queue| ensures done[i] < queue[j] {
      assert track[i] < track[|done| + j];
    }
    forall i, j | 0 <= i < j < |left| ensures left[i] < left[j] {
      if j < |done| { assert track[i] < track[j]; }
      else if i < |done| { assert left[j] in kept; }
      else { assert kept[i - |done|] < kept[j - |done|]; }
    }
    forall k ensures k in left <==> k in track && k !in gone {
      if k in left { DoneOrKept(done, kept, queue, gone, k); }
    }
    LedgerDrops(track, left, arrived, dropped, gone);
  }

  lemma DoneOrKept(done: seq<nat>, kept: seq<nat>, queue: seq<nat>, gone: set<nat>, k: nat)
    requires forall i, j :: 0 <= i < |done| && 0 <= j < |queue| ==> done[i] < queue[j]
    requires forall x :: x in kept ==> x in queue && x !in gone
    requires forall x :: x in gone ==> x in queue
    requires k in done + kept
    ensures k in done + queue && k !in gone
  {}

  lemma TailAscending(a: seq<nat>, b: seq<nat>)
    requires Ascending(a + b)
    ensures Ascending(b)
  {
    forall i, j | 0 <= i < j < |b| ensures b[i] < b[j] {
      assert (a + b)[|a| + i] < (a + b)[|a| + j];
    }
  }

  lemma DropQueuesOrderly(l: Lane, owner: Owner)
    requires Orderly(l)
    ensures Orderly(DropQueues(l, owner))
  {
    hide Without, Gone, Ledger;
    var done, queue := Numbers(l.answers, AnswerNumber), Numbers(l.queue, RequestNumber);
    LedgerAscends(done, queue, l.arrived, l.dropped);
    KeptAscending(l.queue, RequestOwner, RequestNumber, owner);
    forall k { KeptOrGone(l.queue, RequestOwner, RequestNumber, owner, k); }
    DropBalances(done, queue, Numbers(Without(l.queue, RequestOwner, owner), RequestNumber),
                 Gone(l.queue, RequestOwner, RequestNumber, owner), l.arrived, l.dropped);
  }

  lemma LedgerAscends(done: seq<nat>, queue: seq<nat>, arrived: nat, dropped: set<nat>)
    requires Ledger(done + queue, arrived, dropped)
    ensures Ascending(queue)
  {
    TailAscending(done, queue);
  }

  lemma DropFetchOrderly(f: FetchLane, owner: Owner)
    requires OrderlyFetch(f)
    ensures OrderlyFetch(DropFetchQueue(f, owner))
  {
    assert f.queue == [] ==> Without(f.queue, FetchOwner, owner) == [];
    hide Without, Gone, Ledger;
    var done, queue := Numbers(f.answers, FetchAnswerNumber), Numbers(f.queue, FetchNumber);
    LedgerAscends(done, queue, f.arrived, f.dropped);
    KeptAscending(f.queue, FetchOwner, FetchNumber, owner);
    forall k { KeptOrGone(f.queue, FetchOwner, FetchNumber, owner, k); }
    DropBalances(done, queue, Numbers(Without(f.queue, FetchOwner, owner), FetchNumber),
                 Gone(f.queue, FetchOwner, FetchNumber, owner), f.arrived, f.dropped);
  }

  lemma DropAllQueued(w: World, owner: Owner)
    requires Queued(w)
    ensures Queued(DropAllQueues(w, owner)) && Queued(DropAllFetchQueues(w, owner))
  {
    hide Orderly, OrderlyFetch, DropFetchQueue;
    forall x ensures var l := DropAllQueues(w, owner).lanes[x];
      Orderly(l) && (l.lease.None? ==> l.queue == []) && OrderlyFetch(l.fetch)
    {
      assert Orderly(w.lanes[x]) && OrderlyFetch(w.lanes[x].fetch);
      DropQueuesOrderly(w.lanes[x], owner);
    }
    forall x ensures var l := DropAllFetchQueues(w, owner).lanes[x];
      Orderly(l) && (l.lease.None? ==> l.queue == []) && OrderlyFetch(l.fetch)
    {
      assert Orderly(w.lanes[x]) && OrderlyFetch(w.lanes[x].fetch);
      SameTrack(w.lanes[x], DropAllFetchQueues(w, owner).lanes[x]);
      DropFetchOrderly(w.lanes[x].fetch, owner);
    }
  }

  lemma SameTrack(l: Lane, l1: Lane)
    requires Orderly(l) && l1.answers == l.answers && l1.queue == l.queue && l1.arrived == l.arrived && l1.dropped == l.dropped
    ensures Orderly(l1)
  {}

  lemma {:induction false} DetachFetchesQueued(w: World, owner: Owner, order: seq<Connection>)
    requires Queued(w)
    ensures Queued(DetachFetches(w, owner, order))
    decreases |order|
  {
    hide Queued, ReleaseFetch;
    if order != [] {
      var f := w.lanes[order[0]].fetch.lease;
      if f.Some? { ReleaseFetchQueues(w, owner, order[0], f.value.ticket); }
      DetachFetchesQueued(if f.Some? && f.value.owner == owner then ReleaseFetch(w, owner, order[0], f.value.ticket) else w,
                          owner, order[1..]);
    }
  }

  /** Setting a lease aside and fencing or committing leaves the books as they were. */
  lemma AsideQueued(w: World, w2: World, c: Connection)
    requires Queued(w) && w2.lanes[c].lease.None?
    requires var l, m := w.lanes[c], w2.lanes[c];
      m.answers == l.answers && m.queue == l.queue && m.arrived == l.arrived && m.dropped == l.dropped && m.fetch == l.fetch
    requires forall x :: x != c ==> w2.lanes[x] == w.lanes[x]
    ensures Queued(Next(w2, c))
  {
    assert Orderly(w.lanes[c]);
    SameTrack(w.lanes[c], w2.lanes[c]);
    hide Next, Orderly, Queued, Drained;
    NextDrains(w2, c);
    DrainedQueued(w, w2, Next(w2, c), c);
  }

  lemma DetachLeaseQueued(w: World, owner: Owner, c: Connection)
    requires Queued(w)
    ensures Queued(DetachLease(w, owner, c))
  {
    hide Next, Persist, State, DetachRecord, Queued;
    var l := w.lanes[c];
    if l.lease.Some? && l.lease.value.owner == owner {
      var w1 := Abandon(w, c);
      if l.lease.value.action == Read {
        AsideQueued(w, w1, c);
      } else if State(w1, c).None? {
        AsideQueued(w, Put(w1, c, w1.lanes[c].(fenced := true)), c);
      } else {
        var r := DetachRecord(State(w1, c).value, w1.ids);
        PersistLane(w1.(ids := w1.ids + 3), c, r);
        AsideQueued(w, Persist(w1.(ids := w1.ids + 3), c, r).0, c);
      }
    }
  }

  lemma {:induction false} DetachLeasesQueued(w: World, owner: Owner, order: seq<Connection>)
    requires Queued(w)
    ensures Queued(DetachLeases(w, owner, order))
    decreases |order|
  {
    hide Queued, DetachLease;
    if order != [] {
      DetachLeaseQueued(w, owner, order[0]);
      DetachLeasesQueued(DetachLease(w, owner, order[0]), owner, order[1..]);
    }
  }

  lemma DetachQueued(w: World, owner: Owner, order: seq<Connection>)
    requires Queued(w)
    ensures Queued(Detach(w, owner, order))
  {
    hide Queued, DetachLeases, DetachFetches, DropQueues, DropFetchQueue;
    DropAllQueued(w, owner);
    var a := DropAllFetchQueues(w, owner);
    DetachFetchesQueued(a, owner, order);
    var b := DetachFetches(a, owner, order);
    DropAllQueued(b, owner);
    DetachLeasesQueued(DropAllQueues(b, owner), owner, order);
  }

  lemma RestartQueued(w: World)
    ensures Queued(Restart(w))
  {
    forall x ensures Restart(w).lanes[x] == IdleLane { IdleAt(x); }
  }
}
