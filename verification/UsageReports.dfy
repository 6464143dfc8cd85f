/** Usage pages folded into totals per period and per model: checked 64-bit sums, in place. */
module UsageReports {
  import opened Wrappers
  import opened Pages

  const U64Max: int := 0xffff_ffff_ffff_ffff

  datatype Row = Row(input: nat, output: nat, cached: Option<nat>, requests: nat, model: Option<string>)
  datatype Totals = Totals(input: nat, output: nat, cached: nat, requests: nat)

  const Nothing := Totals(0, 0, 0, 0)

  // ---- The reference: exact sums over all rows ----

  datatype Key = OfPeriod(period: Period) | OfModel(model: string)
  datatype Measure = Input | Output | Cached | Requests

  function Of(row: Row, m: Measure): nat {
    match m
    case Input => row.input
    case Output => row.output
    case Cached => if row.cached.Some? then row.cached.value else 0
    case Requests => row.requests
  }

  predicate Under(e: Entry<Row>, k: Key) {
    match k
    case OfPeriod(p) => e.period == p
    case OfModel(model) => e.row.model == Some(model)
  }

  function Sum(entries: seq<Entry<Row>>, k: Key, m: Measure): nat {
    if entries == [] then 0
    else
      var last := entries[|entries| - 1];
      Sum(entries[..|entries| - 1], k, m) + if Under(last, k) then Of(last.row, m) else 0
  }

  function Exact(entries: seq<Entry<Row>>, k: Key): Totals {
    Totals(Sum(entries, k, Input), Sum(entries, k, Output), Sum(entries, k, Cached), Sum(entries, k, Requests))
  }

  predicate FitTotals(t: Totals) {
    t.input <= U64Max && t.output <= U64Max && t.cached <= U64Max && t.requests <= U64Max
  }

  ghost predicate Fits(entries: seq<Entry<Row>>) { forall k :: FitTotals(Exact(entries, k)) }

  function Models(entries: seq<Entry<Row>>): set<string> {
    set i | 0 <= i < |entries| && entries[i].row.model.Some? :: entries[i].row.model.value
  }

  datatype Usage = Usage(byPeriod: map<Period, Totals>, byModel: map<string, Totals>)

  ghost function Aggregated(buckets: seq<Bucket<Row>>): Result<Usage> {
    var entries := Flat(buckets);
    if !Fits(entries) then Failure
    else Success(Usage(map p | p in Periods(buckets) :: Exact(entries, OfPeriod(p)),
                       map m | m in Models(entries) :: Exact(entries, OfModel(m))))
  }

  // ---- The fold ----

  /** `UsageTotals::add`: every field is a checked 64-bit addition. */
  method Add(totals: Totals, row: Row) returns (r: Result<Totals>)
    ensures var cached := if row.cached.Some? then row.cached.value else 0;
      if totals.input + row.input <= U64Max && totals.output + row.output <= U64Max
         && totals.cached + cached <= U64Max && totals.requests + row.requests <= U64Max
      then r == Success(Totals(totals.input + row.input, totals.output + row.output, totals.cached + cached,
                               totals.requests + row.requests))
      else r.Failure?
  {
    var t := totals;
    t := t.(input := t.input + row.input);
    if t.input > U64Max { return Failure; }
    t := t.(output := t.output + row.output);
    if t.output > U64Max { return Failure; }
    t := t.(cached := t.cached + if row.cached.Some? then row.cached.value else 0);
    if t.cached > U64Max { return Failure; }
    t := t.(requests := t.requests + row.requests);
    if t.requests > U64Max { return Failure; }
    r := Success(t);
  }

  function Plus(t: Totals, row: Row): Totals {
    Totals(t.input + Of(row, Input), t.output + Of(row, Output), t.cached + Of(row, Cached), t.requests + Of(row, Requests))
  }

  lemma ExactGrows(entries: seq<Entry<Row>>, e: Entry<Row>, k: Key)
    ensures Exact(entries + [e], k) == if Under(e, k) then Plus(Exact(entries, k), e.row) else Exact(entries, k)
  {
    assert (entries + [e])[..|entries|] == entries;
  }

  /** The maps hold the exact totals of what has been read so far. */
  ghost predicate Tracks(u: Usage, entries: seq<Entry<Row>>, periods: set<Period>) {
    && Fits(entries) && (forall e :: e in entries ==> e.period in periods)
    && u.byPeriod.Keys == periods && (forall p :: p in periods ==> u.byPeriod[p] == Exact(entries, OfPeriod(p)))
    && u.byModel.Keys == Models(entries) && (forall m :: m in u.byModel ==> u.byModel[m] == Exact(entries, OfModel(m)))
  }

  lemma {:induction false} NoModelNoSum(entries: seq<Entry<Row>>, model: string)
    requires model !in Models(entries)
    ensures Exact(entries, OfModel(model)) == Nothing
  {
    if entries != [] {
      var front, last := entries[..|entries| - 1], entries[|entries| - 1];
      assert entries == front + [last];
      if last.row.model.Some? { assert entries[|entries| - 1].row.model.value in Models(entries); }
      assert Models(front) <= Models(entries) by {
        forall m | m in Models(front) ensures m in Models(entries) {
          var i :| 0 <= i < |front| && front[i].row.model.Some? && front[i].row.model.value == m;
          assert entries[i].row.model == Some(m);
        }
      }
      NoModelNoSum(front, model);
      ExactGrows(front, last, OfModel(model));
    }
  }

  lemma {:induction false} NoPeriodNoSum(entries: seq<Entry<Row>>, p: Period)
    requires forall e :: e in entries ==> e.period != p
    ensures Exact(entries, OfPeriod(p)) == Nothing
  {
    if entries != [] {
      assert entries[|entries| - 1] in entries;
      NoPeriodNoSum(entries[..|entries| - 1], p);
      ExactGrows(entries[..|entries| - 1], entries[|entries| - 1], OfPeriod(p));
      assert entries == entries[..|entries| - 1] + [entries[|entries| - 1]];
    }
  }

  lemma ModelsGrow(entries: seq<Entry<Row>>, e: Entry<Row>)
    ensures Models(entries + [e]) == Models(entries) + if e.row.model.Some? then {e.row.model.value} else {}
  {
    var more := entries + [e];
    forall m | m in Models(entries) ensures m in Models(more) {
      var i :| 0 <= i < |entries| && entries[i].row.model.Some? && entries[i].row.model.value == m;
      assert more[i].row.model == Some(m);
    }
    assert more[|entries|] == e;
  }

  /** These totals take the row in, or stay as they are. */
  predicate Moved(t: Totals, t': Totals, row: Row, counted: bool) {
    if !counted then t' == t
    else
      && t'.input == t.input + row.input && t'.output == t.output + row.output && t'.requests == t.requests + row.requests
      && t'.cached == t.cached + if row.cached.Some? then row.cached.value else 0
  }

  /** The row has been added to its period and to its model, and to nothing else. */
  predicate Counted(u: Usage, next: Usage, p: Period, row: Row) {
    && next.byPeriod.Keys == u.byPeriod.Keys
    && (forall q :: q in u.byPeriod ==> Moved(u.byPeriod[q], next.byPeriod[q], row, q == p))
    && next.byModel.Keys == u.byModel.Keys + (if row.model.Some? then {row.model.value} else {})
    && forall m :: m in next.byModel ==>
         Moved(if m in u.byModel then u.byModel[m] else Nothing, next.byModel[m], row, row.model == Some(m))
  }

  /** One result row: its period's totals, then its model's. */
  method AddRow(u: Usage, p: Period, row: Row, ghost entries: seq<Entry<Row>>) returns (r: Result<Usage>)
    requires p in u.byPeriod && Tracks(u, entries, u.byPeriod.Keys)
    ensures r.Success? ==> Tracks(r.value, entries + [Entry(p, row)], u.byPeriod.Keys)
    ensures r.Failure? ==> !Fits(entries + [Entry(p, row)])
    ensures r.Success? ==> Counted(u, r.value, p, row)
  {
    hide Exact, Tracks;
    RowFails(u, p, row, entries);
    var inPeriod := Add(u.byPeriod[p], row);
    if inPeriod.Failure? { return Failure; }
    var next := u.(byPeriod := u.byPeriod[p := inPeriod.value]);
    if row.model.Some? {
      var model := row.model.value;
      var ofModel := Add(if model in u.byModel then u.byModel[model] else Nothing, row);
      if ofModel.Failure? { return Failure; }
      next := next.(byModel := next.byModel[model := ofModel.value]);
    }
    RowTracks(u, next, p, row, entries);
    r := Success(next);
  }

  /** A sum that does not fit here does not fit the reference either. */
  lemma RowFails(u: Usage, p: Period, row: Row, entries: seq<Entry<Row>>)
    requires p in u.byPeriod && Tracks(u, entries, u.byPeriod.Keys)
    ensures !FitTotals(Plus(u.byPeriod[p], row)) ==> !Fits(entries + [Entry(p, row)])
    ensures row.model.Some? ==>
      var model := row.model.value;
      !FitTotals(Plus(if model in u.byModel then u.byModel[model] else Nothing, row)) ==> !Fits(entries + [Entry(p, row)])
  {
    hide Exact, Plus;
    ExactGrows(entries, Entry(p, row), OfPeriod(p));
    if row.model.Some? {
      ExactGrows(entries, Entry(p, row), OfModel(row.model.value));
      if row.model.value !in u.byModel { NoModelNoSum(entries, row.model.value); }
    }
  }

  lemma MovedIs(t: Totals, t': Totals, row: Row, counted: bool)
    requires Moved(t, t', row, counted)
    ensures t' == if counted then Plus(t, row) else t
  {}

  lemma RowTracks(u: Usage, next: Usage, p: Period, row: Row, entries: seq<Entry<Row>>)
    requires p in u.byPeriod && Tracks(u, entries, u.byPeriod.Keys) && Counted(u, next, p, row)
    requires FitTotals(next.byPeriod[p]) && (row.model.Some? ==> FitTotals(next.byModel[row.model.value]))
    ensures Tracks(next, entries + [Entry(p, row)], u.byPeriod.Keys)
  {
    var e := Entry(p, row);
    var more := entries + [e];
    forall q | q in u.byPeriod ensures next.byPeriod[q] == Exact(more, OfPeriod(q)) {
      ExactGrows(entries, e, OfPeriod(q));
      MovedIs(u.byPeriod[q], next.byPeriod[q], row, q == p);
    }
    forall m | m in next.byModel ensures next.byModel[m] == Exact(more, OfModel(m)) {
      ExactGrows(entries, e, OfModel(m));
      if m !in u.byModel { NoModelNoSum(entries, m); }
      MovedIs(if m in u.byModel then u.byModel[m] else Nothing, next.byModel[m], row, row.model == Some(m));
    }
    hide Exact, Plus, Moved;
    forall k ensures FitTotals(Exact(more, k)) { ExactGrows(entries, e, k); }
    ModelsGrow(entries, e);
  }

  lemma {:induction false} SumGrows(entries: seq<Entry<Row>>, more: seq<Entry<Row>>, k: Key, m: Measure)
    ensures Sum(entries, k, m) <= Sum(entries + more, k, m)
    decreases |more|
  {
    if more == [] {
      assert entries + more == entries;
    } else {
      SumGrows(entries, more[..|more| - 1], k, m);
      assert (entries + more)[..|entries + more| - 1] == entries + more[..|more| - 1];
    }
  }

  /** Sums only grow: once one is too large, more rows cannot help. */
  lemma FitsEarlier(entries: seq<Entry<Row>>, more: seq<Entry<Row>>)
    requires Fits(entries + more)
    ensures Fits(entries)
  {
    forall k ensures FitTotals(Exact(entries, k)) {
      assert FitTotals(Exact(entries + more, k));
      SumGrows(entries, more, k, Input);
      SumGrows(entries, more, k, Output);
      SumGrows(entries, more, k, Cached);
      SumGrows(entries, more, k, Requests);
    }
  }

  lemma FrontFits(entries: seq<Entry<Row>>, rows: seq<Entry<Row>>, i: nat)
    requires i <= |rows|
    ensures Fits(entries + rows) ==> Fits(entries + rows[..i])
  {
    hide Fits;
    assert entries + rows == entries + rows[..i] + rows[i..];
    if Fits(entries + rows) { FitsEarlier(entries + rows[..i], rows[i..]); }
  }

  lemma TracksKeys(u: Usage, entries: seq<Entry<Row>>, periods: set<Period>)
    requires Tracks(u, entries, periods)
    ensures u.byPeriod.Keys == periods
  {}

  lemma NewPeriodTracks(u: Usage, p: Period, entries: seq<Entry<Row>>)
    requires Tracks(u, entries, u.byPeriod.Keys) && p !in u.byPeriod
    ensures Tracks(u.(byPeriod := u.byPeriod[p := Nothing]), entries, u.byPeriod.Keys + {p})
  {
    NoPeriodNoSum(entries, p);
    hide Exact;
  }

  method AddBucket(u: Usage, b: Bucket<Row>, ghost entries: seq<Entry<Row>>) returns (r: Result<Usage>)
    requires Tracks(u, entries, u.byPeriod.Keys)
    ensures r.Success? ==> Tracks(r.value, entries + EntriesOf(b), u.byPeriod.Keys + {(b.start, b.end)})
    ensures r.Failure? ==> !Fits(entries + EntriesOf(b))
  {
    var p := (b.start, b.end);
    var next := u;
    ghost var rows := EntriesOf(b);
    assert |rows| == |b.rows|;
    hide Exact, EntriesOf, Counted, Tracks, Fits;
    if p !in u.byPeriod {
      NewPeriodTracks(u, p, entries);
      next := u.(byPeriod := u.byPeriod[p := Nothing]);
    }
    ghost var keys := next.byPeriod.Keys;
    assert keys == u.byPeriod.Keys + {p};
    assert entries + rows[..0] == entries;
    for i := 0 to |b.rows|
      invariant next.byPeriod.Keys == keys && |rows| == |b.rows|
      invariant Tracks(next, entries + rows[..i], keys)
    {
      EntryAt(b, i);
      assert Tracks(next, entries + rows[..i], next.byPeriod.Keys);
      assert entries + rows[..i + 1] == entries + rows[..i] + [Entry(p, b.rows[i])];
      var added := AddRow(next, p, b.rows[i], entries + rows[..i]);
      if added.Failure? {
        FrontFits(entries, rows, i + 1);
        return Failure;
      }
      next := added.value;
      TracksKeys(next, entries + rows[..i + 1], keys);
    }
    assert rows[..|b.rows|] == rows;
    r := Success(next);
  }

  /** Every page's buckets, in the order the pages came. */
  method AddPage(u: Usage, page: seq<Bucket<Row>>, ghost before: seq<Bucket<Row>>) returns (r: Result<Usage>)
    requires Tracks(u, Flat(before), Periods(before))
    ensures r.Success? ==> Tracks(r.value, Flat(before + page), Periods(before + page))
    ensures r.Failure? ==> !Fits(Flat(before + page))
  {
    hide Exact, EntriesOf, Flat, Periods;
    var next := u;
    assert before + page[..0] == before;
    for i := 0 to |page|
      invariant Tracks(next, Flat(before + page[..i]), Periods(before + page[..i]))
    {
      assert before + page[..i + 1] == before + page[..i] + [page[i]];
      FlatAdds(before + page[..i], page[i]);
      assert next.byPeriod.Keys == Periods(before + page[..i]);
      var added := AddBucket(next, page[i], Flat(before + page[..i]));
      if added.Failure? {
        assert before + page == before + page[..i + 1] + page[i + 1..];
        FlatJoins(before + page[..i + 1], page[i + 1..]);
        if Fits(Flat(before + page)) { FitsEarlier(Flat(before + page[..i + 1]), Flat(page[i + 1..])); }
        return Failure;
      }
      next := added.value;
    }
    assert page[..|page|] == page;
    r := Success(next);
  }

  method Aggregate(pages: seq<seq<Bucket<Row>>>) returns (r: Result<Usage>)
    ensures r == Aggregated(Joined(pages))
  {
    hide Exact, EntriesOf, Flat, Periods, Models, Joined;
    var next := Usage(map[], map[]);
    StartTracks();
    for i := 0 to |pages|
      invariant Tracks(next, Flat(Joined(pages[..i])), Periods(Joined(pages[..i])))
    {
      JoinedAt(pages, i);
      var added := AddPage(next, pages[i], Joined(pages[..i]));
      if added.Failure? {
        JoinedRest(pages, i + 1);
        FlatJoins(Joined(pages[..i + 1]), Joined(pages[i + 1..]));
        if Fits(Flat(Joined(pages))) { FitsEarlier(Flat(Joined(pages[..i + 1])), Flat(Joined(pages[i + 1..]))); }
        return Failure;
      }
      next := added.value;
    }
    assert pages[..|pages|] == pages;
    r := Success(next);
    TracksExactly(next, Joined(pages));
  }

  lemma StartTracks()
    ensures forall pages: seq<seq<Bucket<Row>>> :: Tracks(Usage(map[], map[]), Flat(Joined(pages[..0])), Periods(Joined(pages[..0])))
  {}

  lemma TracksExactly(u: Usage, buckets: seq<Bucket<Row>>)
    requires Tracks(u, Flat(buckets), Periods(buckets))
    ensures Aggregated(buckets) == Success(u)
  {
    hide Exact, Flat, Periods, Models;
    var entries := Flat(buckets);
    assert u.byPeriod == map p | p in Periods(buckets) :: Exact(entries, OfPeriod(p));
    assert u.byModel == map m | m in Models(entries) :: Exact(entries, OfModel(m));
  }

  // ---- Order ----

  lemma SumTakesOut(entries: seq<Entry<Row>>, i: nat, k: Key, m: Measure)
    requires i < |entries|
    ensures Sum(entries, k, m)
         == Sum(entries[..i] + entries[i + 1..], k, m) + if Under(entries[i], k) then Of(entries[i].row, m) else 0
  {
    assert entries == entries[..i] + [entries[i]] + entries[i + 1..];
    SumJoins(entries[..i] + [entries[i]], entries[i + 1..], k, m);
    SumJoins(entries[..i], [entries[i]], k, m);
    SumJoins(entries[..i], entries[i + 1..], k, m);
    assert [entries[i]][..0] == [];
  }

  lemma {:induction false} SumJoins(a: seq<Entry<Row>>, b: seq<Entry<Row>>, k: Key, m: Measure)
    ensures Sum(a + b, k, m) == Sum(a, k, m) + Sum(b, k, m)
    decreases |b|
  {
    if b == [] {
      assert a + b == a;
    } else {
      SumJoins(a, b[..|b| - 1], k, m);
      assert (a + b)[..|a + b| - 1] == a + b[..|b| - 1];
    }
  }

  lemma {:induction false} SumPermutes(a: seq<Entry<Row>>, b: seq<Entry<Row>>, k: Key, m: Measure)
    requires multiset(a) == multiset(b)
    ensures Sum(a, k, m) == Sum(b, k, m)
    decreases |a|
  {
    if a == [] {
      assert |multiset(b)| == 0 && b == [];
    } else {
      var last := a[|a| - 1];
      TakeLast(a);
      assert last in multiset(b);
      var i :| 0 <= i < |b| && b[i] == last;
      TakeOut(b, i);
      SumTakesOut(b, i, k, m);
      SumPermutes(a[..|a| - 1], b[..i] + b[i + 1..], k, m);
    }
  }

  lemma ModelsPermute(a: seq<Entry<Row>>, b: seq<Entry<Row>>)
    requires multiset(a) == multiset(b)
    ensures Models(a) <= Models(b)
  {
    forall m | m in Models(a) ensures m in Models(b) {
      var i :| 0 <= i < |a| && a[i].row.model.Some? && a[i].row.model.value == m;
      assert a[i] in multiset(b);
      var j :| 0 <= j < |b| && b[j] == a[i];
      assert b[j].row.model == Some(m);
    }
  }

  /** Only the rows and the periods matter, not how rows are split over buckets: success and
      every total agree. */
  lemma RowsDecide(a: seq<Bucket<Row>>, b: seq<Bucket<Row>>)
    requires multiset(Flat(a)) == multiset(Flat(b)) && Periods(a) == Periods(b)
    ensures Aggregated(a) == Aggregated(b)
  {
    hide Flat, Periods, Models;
    var x, y := Flat(a), Flat(b);
    forall k ensures Exact(x, k) == Exact(y, k) {
      SumPermutes(x, y, k, Input);
      SumPermutes(x, y, k, Output);
      SumPermutes(x, y, k, Cached);
      SumPermutes(x, y, k, Requests);
    }
    hide Exact;
    assert Fits(x) == Fits(y);
    ModelsPermute(x, y);
    ModelsPermute(y, x);
    assert (map p | p in Periods(a) :: Exact(x, OfPeriod(p))) == map p | p in Periods(b) :: Exact(y, OfPeriod(p));
    assert (map m | m in Models(x) :: Exact(x, OfModel(m))) == map m | m in Models(y) :: Exact(y, OfModel(m));
  }

  /** Reordering or resplitting pages changes nothing, not even whether it fails. */
  lemma PageOrderIgnored(pages: seq<seq<Bucket<Row>>>, pages': seq<seq<Bucket<Row>>>)
    requires multiset(Joined(pages)) == multiset(Joined(pages'))
    ensures Aggregated(Joined(pages)) == Aggregated(Joined(pages'))
  {
    hide Aggregated;
    FlatPermutes(Joined(pages), Joined(pages'));
    PeriodsPermute(Joined(pages), Joined(pages'));
    RowsDecide(Joined(pages), Joined(pages'));
  }

  // ---- Conservation ----

  function Overall(entries: seq<Entry<Row>>, m: Measure): nat {
    if entries == [] then 0 else Overall(entries[..|entries| - 1], m) + Of(entries[|entries| - 1].row, m)
  }

  function Field(t: Totals, m: Measure): nat {
    match m
    case Input => t.input
    case Output => t.output
    case Cached => t.cached
    case Requests => t.requests
  }

  /** One measure added up over listed periods. */
  function Listed(list: seq<Period>, byPeriod: map<Period, Totals>, m: Measure): nat
    requires forall p :: p in list ==> p in byPeriod
  {
    if list == [] then 0 else Field(byPeriod[list[0]], m) + Listed(list[1..], byPeriod, m)
  }

  predicate Distinct(list: seq<Period>) { forall i, j :: 0 <= i < j < |list| ==> list[i] != list[j] }

  function SumOver(list: seq<Period>, entries: seq<Entry<Row>>, m: Measure): nat {
    if list == [] then 0 else Sum(entries, OfPeriod(list[0]), m) + SumOver(list[1..], entries, m)
  }

  lemma {:induction false} SumOverGrows(list: seq<Period>, entries: seq<Entry<Row>>, e: Entry<Row>, m: Measure)
    requires Distinct(list)
    ensures SumOver(list, entries + [e], m) == SumOver(list, entries, m) + if e.period in list then Of(e.row, m) else 0
    decreases |list|
  {
    if list != [] {
      assert list == [list[0]] + list[1..] && list[0] !in list[1..];
      SumOverGrows(list[1..], entries, e, m);
      SumJoins(entries, [e], OfPeriod(list[0]), m);
      assert [e][..0] == [];
    }
  }

  lemma {:induction false} SumOverAll(list: seq<Period>, entries: seq<Entry<Row>>, m: Measure)
    requires Distinct(list) && forall e :: e in entries ==> e.period in list
    ensures SumOver(list, entries, m) == Overall(entries, m)
    decreases |entries|
  {
    if entries == [] {
      SumOverNothing(list, m);
    } else {
      var front, last := entries[..|entries| - 1], entries[|entries| - 1];
      assert entries == front + [last] && last in entries;
      SumOverAll(list, front, m);
      SumOverGrows(list, front, last, m);
    }
  }

  lemma {:induction false} SumOverNothing(list: seq<Period>, m: Measure)
    ensures SumOver(list, [], m) == 0
  {
    if list != [] { SumOverNothing(list[1..], m); }
  }

  lemma {:induction false} ListedIsSumOver(list: seq<Period>, byPeriod: map<Period, Totals>, entries: seq<Entry<Row>>,
      m: Measure)
    requires forall p :: p in list ==> p in byPeriod && byPeriod[p] == Exact(entries, OfPeriod(p))
    ensures Listed(list, byPeriod, m) == SumOver(list, entries, m)
    decreases |list|
  {
    if list != [] {
      ListedIsSumOver(list[1..], byPeriod, entries, m);
      assert list[0] in list;
    }
  }

  lemma {:induction false} PeriodsCover(buckets: seq<Bucket<Row>>, e: Entry<Row>)
    requires e in Flat(buckets)
    ensures e.period in Periods(buckets)
    decreases |buckets|
  {
    var front, last := buckets[..|buckets| - 1], buckets[|buckets| - 1];
    assert buckets == front + [last];
    FlatAdds(front, last);
    if e in Flat(front) {
      PeriodsCover(front, e);
    } else {
      assert e in EntriesOf(last);
    }
  }

  /** The buckets of a report add up to the rows of its pages, measure by measure. */
  lemma BucketsConserve(buckets: seq<Bucket<Row>>, list: seq<Period>, m: Measure)
    requires Aggregated(buckets).Success? && Distinct(list) && forall p :: p in list <==> p in Periods(buckets)
    ensures Listed(list, Aggregated(buckets).value.byPeriod, m) == Overall(Flat(buckets), m)
  {
    hide Exact, Flat, Periods;
    forall e | e in Flat(buckets) ensures e.period in list { PeriodsCover(buckets, e); }
    ListedIsSumOver(list, Aggregated(buckets).value.byPeriod, Flat(buckets), m);
    SumOverAll(list, Flat(buckets), m);
  }
}
