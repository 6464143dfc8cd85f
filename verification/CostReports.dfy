/** Cost pages summed exactly per period, the merged bucket list, and the budget totals. */
module CostReports {
  import opened Wrappers
  import opened Pages
  import opened DecimalAmounts
  import opened DecimalText
  import opened UsageReports
  import opened Calendar
  import opened Timestamps

  // ---- Reading one amount ----

  datatype Amount = Amount(value: Option<string>, currency: Option<string>)

  /** A result's amount; anything missing is skipped. */
  type Cost = Option<Amount>

  /** `eq_ignore_ascii_case`. */
  predicate IsUsd(currency: string) {
    && |currency| == 3 && (currency[0] == 'u' || currency[0] == 'U')
    && (currency[1] == 's' || currency[1] == 'S') && (currency[2] == 'd' || currency[2] == 'D')
  }

  /** Zero for a skipped result; failure for another currency or an unreadable amount. */
  function AmountOf(cost: Cost): Result<Decimal> {
    if cost.None? || cost.value.value.None? || cost.value.currency.None? then Success(Zero)
    else if !IsUsd(cost.value.currency.value) then Failure
    else FromSource(cost.value.value.value)
  }

  const Dollars: set<string> := {"usd", "usD", "uSd", "uSD", "Usd", "UsD", "USd", "USD"}

  /** An amount in any other currency than the eight spellings of the dollar's is refused; a
      result with no amount at all costs nothing. */
  lemma CurrencyDecides(cost: Cost)
    ensures (cost.None? || cost.value.value.None? || cost.value.currency.None?) ==> AmountOf(cost) == Success(Zero)
    ensures cost.Some? && cost.value.value.Some? && cost.value.currency.Some? ==>
      AmountOf(cost) == if cost.value.currency.value in Dollars then FromSource(cost.value.value.value) else Failure
  {
    hide FromSource;
    if cost.Some? && cost.value.currency.Some? { DollarsAre(cost.value.currency.value); }
  }

  lemma DollarsAre(s: string)
    ensures s in Dollars <==> |s| == 3 && s[0] in {'u', 'U'} && s[1] in {'s', 'S'} && s[2] in {'d', 'D'}
  {
    if |s| == 3 {
      assert s == [s[0], s[1], s[2]];
    }
  }

  lemma AmountsAreCanonical(cost: Cost)
    ensures AmountOf(cost).Success? ==> Canonical(AmountOf(cost).value)
  {}

  // ---- The reference: exact real sums over all rows ----

  ghost function WorthUnder(entries: seq<Entry<Cost>>, p: Period): real {
    if entries == [] then 0.0
    else
      var last := entries[|entries| - 1];
      WorthUnder(entries[..|entries| - 1], p) + if last.period == p then WorthOf(last.row) else 0.0
  }

  ghost function WorthOf(cost: Cost): real {
    if AmountOf(cost).Success? then Worth(AmountOf(cost).value) else 0.0
  }

  predicate AllReadable(entries: seq<Entry<Cost>>) { forall e :: e in entries ==> AmountOf(e.row).Success? }

  /** The map holds the canonical exact cost of every period seen. */
  ghost predicate Holds(costs: map<Period, Decimal>, entries: seq<Entry<Cost>>, periods: set<Period>) {
    && costs.Keys == periods && AllReadable(entries) && (forall e :: e in entries ==> e.period in periods)
    && forall p :: p in periods ==> Canonical(costs[p]) && Worth(costs[p]) == WorthUnder(entries, p)
  }

  lemma {:induction false} WorthJoins(a: seq<Entry<Cost>>, b: seq<Entry<Cost>>, p: Period)
    ensures WorthUnder(a + b, p) == WorthUnder(a, p) + WorthUnder(b, p)
    decreases |b|
  {
    hide WorthOf;
    if b == [] {
      assert a + b == a;
    } else {
      WorthJoins(a, b[..|b| - 1], p);
      assert (a + b)[..|a + b| - 1] == a + b[..|b| - 1];
    }
  }

  lemma {:induction false} WorthElsewhere(entries: seq<Entry<Cost>>, p: Period)
    requires forall e :: e in entries ==> e.period != p
    ensures WorthUnder(entries, p) == 0.0
  {
    hide WorthOf;
    if entries != [] {
      assert entries[|entries| - 1] in entries;
      WorthElsewhere(entries[..|entries| - 1], p);
    }
  }

  // ---- The fold ----

  /** One bucket's rows, added up from zero. */
  function SumOf(rows: seq<Cost>): Result<Decimal> {
    if rows == [] then Success(Zero)
    else
      var front, amount := SumOf(rows[..|rows| - 1]), AmountOf(rows[|rows| - 1]);
      if front.Failure? || amount.Failure? then Failure else CheckedAdd(front.value, amount.value)
  }

  /** The bucket's sum, added to its period's. */
  function WithBucket(costs: map<Period, Decimal>, b: Bucket<Cost>): Result<map<Period, Decimal>> {
    var p, cost := (b.start, b.end), SumOf(b.rows);
    if cost.Failure? then Failure
    else
      var sum := CheckedAdd(if p in costs then costs[p] else Zero, cost.value);
      if sum.Failure? then Failure else Success(costs[p := sum.value])
  }

  function CostsOf(buckets: seq<Bucket<Cost>>): Result<map<Period, Decimal>> {
    if buckets == [] then Success(map[])
    else
      var front := CostsOf(buckets[..|buckets| - 1]);
      if front.Failure? then Failure else WithBucket(front.value, buckets[|buckets| - 1])
  }

  method AddCosts(rows: seq<Cost>) returns (r: Result<Decimal>)
    ensures r == SumOf(rows)
  {
    hide AmountOf, CheckedAdd;
    var cost := Zero;
    for i := 0 to |rows|
      invariant SumOf(rows[..i]) == Success(cost)
    {
      assert rows[..i + 1][..i] == rows[..i];
      var amount := AmountOf(rows[i]);
      if amount.Failure? {
        SumStaysFailed(rows, i + 1);
        return Failure;
      }
      var sum := CheckedAdd(cost, amount.value);
      if sum.Failure? {
        SumStaysFailed(rows, i + 1);
        return Failure;
      }
      cost := sum.value;
    }
    assert rows[..|rows|] == rows;
    r := Success(cost);
  }

  lemma {:induction false} SumStaysFailed(rows: seq<Cost>, i: nat)
    requires i <= |rows| && SumOf(rows[..i]).Failure?
    ensures SumOf(rows).Failure?
    decreases |rows|
  {
    hide AmountOf, CheckedAdd;
    if i == |rows| {
      assert rows[..i] == rows;
    } else {
      assert rows[..|rows| - 1][..i] == rows[..i];
      SumStaysFailed(rows[..|rows| - 1], i);
    }
  }

  method AddCostBucket(costs: map<Period, Decimal>, b: Bucket<Cost>) returns (r: Result<map<Period, Decimal>>)
    ensures r == WithBucket(costs, b)
  {
    hide SumOf, CheckedAdd;
    var p := (b.start, b.end);
    var cost := AddCosts(b.rows);
    if cost.Failure? { return Failure; }
    var total := if p in costs then costs[p] else Zero;
    var sum := CheckedAdd(total, cost.value);
    if sum.Failure? { return Failure; }
    r := Success(costs[p := sum.value]);
  }

  method AddCostPage(costs: map<Period, Decimal>, page: seq<Bucket<Cost>>, ghost before: seq<Bucket<Cost>>)
    returns (r: Result<map<Period, Decimal>>)
    requires CostsOf(before) == Success(costs)
    ensures r == CostsOf(before + page)
  {
    hide WithBucket, CostsOf;
    var next := costs;
    assert before + page[..0] == before;
    for i := 0 to |page|
      invariant CostsOf(before + page[..i]) == Success(next)
    {
      assert before + page[..i + 1] == before + page[..i] + [page[i]];
      CostsAdd(before + page[..i], page[i]);
      var added := AddCostBucket(next, page[i]);
      if added.Failure? {
        assert before + page == before + page[..i + 1] + page[i + 1..];
        CostsStayFailed(before + page[..i + 1], page[i + 1..]);
        return Failure;
      }
      next := added.value;
    }
    assert page[..|page|] == page;
    r := Success(next);
  }

  lemma CostsAdd(buckets: seq<Bucket<Cost>>, b: Bucket<Cost>)
    ensures CostsOf(buckets + [b]) ==
            if CostsOf(buckets).Failure? then Failure else WithBucket(CostsOf(buckets).value, b)
  {
    assert (buckets + [b])[..|buckets|] == buckets;
  }

  lemma {:induction false} CostsStayFailed(buckets: seq<Bucket<Cost>>, more: seq<Bucket<Cost>>)
    requires CostsOf(buckets).Failure?
    ensures CostsOf(buckets + more).Failure?
    decreases |more|
  {
    hide WithBucket;
    if more == [] {
      assert buckets + more == buckets;
    } else {
      CostsStayFailed(buckets, more[..|more| - 1]);
      assert (buckets + more)[..|buckets + more| - 1] == buckets + more[..|more| - 1];
    }
  }

  /** The page loops are the fold over all buckets, failures included. */
  method TotalCosts(pages: seq<seq<Bucket<Cost>>>) returns (r: Result<map<Period, Decimal>>)
    ensures r == CostsOf(Joined(pages))
  {
    var next := map[];
    assert CostsOf(Joined(pages[..0])) == Success(next);
    hide CostsOf, Joined;
    for i := 0 to |pages|
      invariant CostsOf(Joined(pages[..i])) == Success(next)
    {
      JoinedAt(pages, i);
      var added := AddCostPage(next, pages[i], Joined(pages[..i]));
      if added.Failure? {
        JoinedRest(pages, i + 1);
        CostsStayFailed(Joined(pages[..i + 1]), Joined(pages[i + 1..]));
        return Failure;
      }
      next := added.value;
    }
    assert pages[..|pages|] == pages;
    r := Success(next);
  }

  // ---- What a successful report holds ----

  lemma ZeroIsCanonical()
    ensures Canonical(Zero) && Worth(Zero) == 0.0
  {}

  lemma {:induction false} SumHolds(rows: seq<Cost>, p: Period)
    requires SumOf(rows).Success?
    ensures var entries := EntriesOf(Bucket(p.0, p.1, rows));
      AllReadable(entries) && Canonical(SumOf(rows).value) && Worth(SumOf(rows).value) == WorthUnder(entries, p)
    decreases |rows|
  {
    hide AmountOf, CheckedAdd, Worth, Canonical, EntriesOf, Aligned;
    ZeroIsCanonical();
    var entries := EntriesOf(Bucket(p.0, p.1, rows));
    EntriesGrow(p, rows);
    if rows != [] {
      var front := rows[..|rows| - 1];
      SumHolds(front, p);
      AmountsAreCanonical(rows[|rows| - 1]);
      AddIsExact(SumOf(front).value, AmountOf(rows[|rows| - 1]).value);
      assert entries[..|entries| - 1] == EntriesOf(Bucket(p.0, p.1, front));
    }
  }

  lemma EntriesGrow(p: Period, rows: seq<Cost>)
    ensures |EntriesOf(Bucket(p.0, p.1, rows))| == |rows|
    ensures rows != [] ==>
      EntriesOf(Bucket(p.0, p.1, rows)) == EntriesOf(Bucket(p.0, p.1, rows[..|rows| - 1])) + [Entry(p, rows[|rows| - 1])]
  {}

  lemma BucketHolds(costs: map<Period, Decimal>, b: Bucket<Cost>, entries: seq<Entry<Cost>>)
    requires Holds(costs, entries, costs.Keys) && WithBucket(costs, b).Success?
    ensures Holds(WithBucket(costs, b).value, entries + EntriesOf(b), costs.Keys + {(b.start, b.end)})
  {
    var p := (b.start, b.end);
    hide AmountOf, CheckedAdd, Worth, Canonical, Aligned, SumOf;
    assert b == Bucket(p.0, p.1, b.rows);
    SumHolds(b.rows, p);
    ZeroIsCanonical();
    if p !in costs { WorthElsewhere(entries, p); }
    AddIsExact(if p in costs then costs[p] else Zero, SumOf(b.rows).value);
    WorthJoins(entries, EntriesOf(b), p);
    forall q | q != p ensures WorthUnder(entries + EntriesOf(b), q) == WorthUnder(entries, q) {
      WorthJoins(entries, EntriesOf(b), q);
      WorthElsewhere(EntriesOf(b), q);
    }
    hide EntriesOf, WorthUnder;
  }

  /** In a report that succeeds every row is readable, and each period's cost is the canonical
      exact sum of its rows. */
  lemma {:induction false} CostsAreExact(buckets: seq<Bucket<Cost>>)
    requires CostsOf(buckets).Success?
    ensures Holds(CostsOf(buckets).value, Flat(buckets), Periods(buckets))
    decreases |buckets|
  {
    hide Canonical, Worth, WorthUnder, EntriesOf, AllReadable, WithBucket, Periods;
    if buckets == [] {
      NoPeriods<Cost>();
      NothingHeld();
    } else {
      var front, last := buckets[..|buckets| - 1], buckets[|buckets| - 1];
      CostsAreExact(front);
      assert buckets == front + [last];
      FlatAdds(front, last);
      assert CostsOf(front).value.Keys == Periods(front);
      BucketHolds(CostsOf(front).value, last, Flat(front));
    }
  }

  lemma NothingHeld()
    ensures Holds(map[], [], {})
  {}

  lemma NoPeriods<R>()
    ensures Periods<R>([]) == {} && Flat<R>([]) == []
  {}

  // ---- When a report succeeds ----

  /** The size of one row's coefficient at `scale`. */
  function Weight(cost: Cost, scale: nat): nat
    requires AmountOf(cost).Success? && AmountOf(cost).value.scale <= scale
  {
    Magnitude(Aligned(AmountOf(cost).value, scale))
  }

  predicate Within(entries: seq<Entry<Cost>>, scale: nat) {
    forall e :: e in entries ==> AmountOf(e.row).Success? && AmountOf(e.row).value.scale <= scale
  }

  function WeightUnder(entries: seq<Entry<Cost>>, p: Period, scale: nat): nat
    requires Within(entries, scale)
  {
    if entries == [] then 0
    else
      var last := entries[|entries| - 1];
      WeightUnder(entries[..|entries| - 1], p, scale) + if last.period == p then Weight(last.row, scale) else 0
  }

  /** Every row readable, and each period's rows together within 128 bits, signs aside. */
  ghost predicate Moderate(entries: seq<Entry<Cost>>, scale: nat) {
    Within(entries, scale) && forall p: Period :: WeightUnder(entries, p, scale) <= I128Max
  }

  lemma {:induction false} WeightJoins(a: seq<Entry<Cost>>, b: seq<Entry<Cost>>, p: Period, scale: nat)
    requires Within(a, scale) && Within(b, scale)
    ensures Within(a + b, scale) && WeightUnder(a + b, p, scale) == WeightUnder(a, p, scale) + WeightUnder(b, p, scale)
    decreases |b|
  {
    hide Weight, AmountOf;
    if b == [] {
      assert a + b == a;
    } else {
      WeightJoins(a, b[..|b| - 1], p, scale);
      assert (a + b)[..|a + b| - 1] == a + b[..|b| - 1];
    }
  }

  predicate Light(d: Decimal, scale: nat, weight: nat) { d.scale <= scale && Magnitude(Aligned(d, scale)) <= weight }

  lemma ZeroIsLight(scale: nat)
    ensures Light(Zero, scale, 0)
  {}

  lemma LightAdds(a: Decimal, b: Decimal, scale: nat, m: nat, n: nat)
    requires Canonical(a) && Canonical(b) && Light(a, scale, m) && Light(b, scale, n) && m + n <= I128Max
    ensures CheckedAdd(a, b).Success? && Canonical(CheckedAdd(a, b).value) && Light(CheckedAdd(a, b).value, scale, m + n)
  {
    SmallAddsFit(a, b, scale);
    AddIsExact(a, b);
    hide CheckedAdd, Aligned, Canonical;
  }

  lemma {:induction false} SumFits(rows: seq<Cost>, p: Period, scale: nat)
    requires var entries := EntriesOf(Bucket(p.0, p.1, rows)); Within(entries, scale) && WeightUnder(entries, p, scale) <= I128Max
    ensures SumOf(rows).Success? && Canonical(SumOf(rows).value)
    ensures Light(SumOf(rows).value, scale, WeightUnder(EntriesOf(Bucket(p.0, p.1, rows)), p, scale))
    decreases |rows|
  {
    hide AmountOf, CheckedAdd, Canonical, EntriesOf, Aligned, Light;
    EntriesGrow(p, rows);
    ZeroIsCanonical();
    ZeroIsLight(scale);
    if rows != [] {
      var front, last := rows[..|rows| - 1], rows[|rows| - 1];
      var entries := EntriesOf(Bucket(p.0, p.1, rows));
      assert entries[..|entries| - 1] == EntriesOf(Bucket(p.0, p.1, front));
      assert entries[|entries| - 1] == Entry(p, last) && Entry(p, last) in entries;
      SumFits(front, p, scale);
      AmountsAreCanonical(last);
      assert Light(AmountOf(last).value, scale, Weight(last, scale)) by { WeightIsLight(last, scale); }
      var weight := WeightUnder(EntriesOf(Bucket(p.0, p.1, front)), p, scale);
      LightAdds(SumOf(front).value, AmountOf(last).value, scale, weight, Weight(last, scale));
    }
  }

  lemma WeightIsLight(cost: Cost, scale: nat)
    requires AmountOf(cost).Success? && AmountOf(cost).value.scale <= scale
    ensures Light(AmountOf(cost).value, scale, Weight(cost, scale))
  {
    hide AmountOf;
  }

  predicate AllLight(costs: map<Period, Decimal>, entries: seq<Entry<Cost>>, scale: nat)
    requires Within(entries, scale)
  {
    forall p :: p in costs ==> Canonical(costs[p]) && Light(costs[p], scale, WeightUnder(entries, p, scale))
  }

  lemma BucketFits(costs: map<Period, Decimal>, b: Bucket<Cost>, entries: seq<Entry<Cost>>, scale: nat)
    requires Within(entries, scale) && AllLight(costs, entries, scale) && Moderate(entries + EntriesOf(b), scale)
    ensures WithBucket(costs, b).Success? && AllLight(WithBucket(costs, b).value, entries + EntriesOf(b), scale)
  {
    var p := (b.start, b.end);
    hide CheckedAdd, Canonical, Aligned, SumOf, AmountOf, EntriesOf, WeightUnder;
    assert b == Bucket(p.0, p.1, b.rows);
    forall e | e in EntriesOf(b) ensures e in entries + EntriesOf(b) {}
    forall q: Period
      ensures WeightUnder(entries + EntriesOf(b), q, scale) == WeightUnder(entries, q, scale) + WeightUnder(EntriesOf(b), q, scale)
    {
      WeightJoins(entries, EntriesOf(b), q, scale);
    }
    SumFits(b.rows, p, scale);
    ZeroIsCanonical();
    ZeroIsLight(scale);
    var known := if p in costs then costs[p] else Zero;
    assert Light(known, scale, WeightUnder(entries, p, scale));
    LightAdds(known, SumOf(b.rows).value, scale, WeightUnder(entries, p, scale), WeightUnder(EntriesOf(b), p, scale));
  }

  /** Whatever the order of its pages, buckets and rows, such a report succeeds. So a report
      fails only for an unreadable row or a period whose rows together leave 128 bits. */
  lemma {:induction false} ModerateReportsSucceed(buckets: seq<Bucket<Cost>>, scale: nat)
    requires Moderate(Flat(buckets), scale)
    ensures CostsOf(buckets).Success? && AllLight(CostsOf(buckets).value, Flat(buckets), scale)
    decreases |buckets|
  {
    hide WithBucket, EntriesOf, Canonical, Light, WeightUnder, AmountOf;
    if buckets != [] {
      var front, last := buckets[..|buckets| - 1], buckets[|buckets| - 1];
      var rest := EntriesOf(last);
      assert Flat(buckets) == Flat(front) + rest;
      forall e | e in Flat(front) || e in rest ensures e in Flat(buckets) {}
      forall p: Period ensures WeightUnder(Flat(front), p, scale) <= I128Max { WeightJoins(Flat(front), rest, p, scale); }
      ModerateReportsSucceed(front, scale);
      BucketFits(CostsOf(front).value, last, Flat(front), scale);
    }
  }

  /** Nor does that condition depend on the order. */
  lemma ModerateIgnoresOrder(a: seq<Entry<Cost>>, b: seq<Entry<Cost>>, scale: nat)
    requires multiset(a) == multiset(b) && Moderate(a, scale)
    ensures Moderate(b, scale)
  {
    hide AmountOf, WeightUnder;
    forall e | e in b ensures e in a { assert e in multiset(b); }
    forall p: Period ensures WeightUnder(b, p, scale) <= I128Max { WeightPermutes(a, b, p, scale); }
  }

  lemma {:induction false} WeightPermutes(a: seq<Entry<Cost>>, b: seq<Entry<Cost>>, p: Period, scale: nat)
    requires multiset(a) == multiset(b) && Within(a, scale) && Within(b, scale)
    ensures WeightUnder(a, p, scale) == WeightUnder(b, p, scale)
    decreases |a|
  {
    hide Weight, AmountOf;
    if a == [] {
      assert |multiset(b)| == 0 && b == [];
    } else {
      var last := a[|a| - 1];
      TakeLast(a);
      assert last in multiset(b);
      var i :| 0 <= i < |b| && b[i] == last;
      TakeOut(b, i);
      assert b == b[..i] + [b[i]] + b[i + 1..];
      WeightJoins(b[..i] + [b[i]], b[i + 1..], p, scale);
      WeightJoins(b[..i], [b[i]], p, scale);
      WeightJoins(b[..i], b[i + 1..], p, scale);
      assert [b[i]][..0] == [];
      WeightPermutes(a[..|a| - 1], b[..i] + b[i + 1..], p, scale);
    }
  }

  // ---- Order ----

  lemma {:induction false} WorthPermutes(a: seq<Entry<Cost>>, b: seq<Entry<Cost>>, p: Period)
    requires multiset(a) == multiset(b)
    ensures WorthUnder(a, p) == WorthUnder(b, p)
    decreases |a|
  {
    hide WorthOf;
    if a == [] {
      assert |multiset(b)| == 0 && b == [];
    } else {
      var last := a[|a| - 1];
      TakeLast(a);
      assert last in multiset(b);
      var i :| 0 <= i < |b| && b[i] == last;
      TakeOut(b, i);
      assert b == b[..i] + [b[i]] + b[i + 1..];
      WorthJoins(b[..i] + [b[i]], b[i + 1..], p);
      WorthJoins(b[..i], [b[i]], p);
      WorthJoins(b[..i], b[i + 1..], p);
      assert [b[i]][..0] == [];
      WorthPermutes(a[..|a| - 1], b[..i] + b[i + 1..], p);
    }
  }

  lemma SameHeld(a: seq<Entry<Cost>>, b: seq<Entry<Cost>>, x: map<Period, Decimal>, y: map<Period, Decimal>,
      periods: set<Period>)
    requires multiset(a) == multiset(b) && Holds(x, a, periods) && Holds(y, b, periods)
    ensures x == y
  {
    hide WorthUnder, Canonical, Worth;
    forall p | p in x ensures x[p] == y[p] {
      WorthPermutes(a, b, p);
      CanonicalUnique(x[p], y[p]);
    }
  }

  /** Whatever order the rows came in, two reports that succeed hold the same costs. */
  lemma CostOrderIgnored(a: seq<Bucket<Cost>>, b: seq<Bucket<Cost>>)
    requires multiset(Flat(a)) == multiset(Flat(b)) && Periods(a) == Periods(b)
    requires CostsOf(a).Success? && CostsOf(b).Success?
    ensures CostsOf(a) == CostsOf(b)
  {
    CostsAreExact(a);
    CostsAreExact(b);
    hide Flat, Periods, Holds, CostsOf;
    SameHeld(Flat(a), Flat(b), CostsOf(a).value, CostsOf(b).value, Periods(a));
  }

  // ---- merge_buckets ----

  predicate Sooner(p: Period, q: Period) { p.0 < q.0 || (p.0 == q.0 && p.1 < q.1) }

  predicate Ascending(list: seq<Period>) { forall i, j :: 0 <= i < j < |list| ==> Sooner(list[i], list[j]) }

  /** `sort_unstable` and `dedup` on one more key. */
  function Insert(list: seq<Period>, p: Period): seq<Period> {
    if list == [] || Sooner(p, list[0]) then [p] + list
    else if list[0] == p then list
    else [list[0]] + Insert(list[1..], p)
  }

  lemma {:induction false} InsertAscends(list: seq<Period>, p: Period)
    requires Ascending(list)
    ensures Ascending(Insert(list, p)) && forall q :: q in Insert(list, p) <==> q == p || q in list
    decreases |list|
  {
    if list == [] || Sooner(p, list[0]) || list[0] == p {
    } else {
      InsertAscends(list[1..], p);
      var rest := Insert(list[1..], p);
      forall q | q in rest ensures Sooner(list[0], q) {
        if q != p {
          var i :| 0 <= i < |list[1..]| && list[1..][i] == q;
          assert list[i + 1] == q;
        }
      }
      assert list == [list[0]] + list[1..];
    }
  }

  method SortedPeriods(periods: set<Period>) returns (list: seq<Period>)
    ensures Ascending(list) && forall p :: p in list <==> p in periods
  {
    list := [];
    var left := periods;
    while left != {}
      invariant left <= periods && Ascending(list) && forall p :: p in list <==> p in periods && p !in left
      decreases |left|
    {
      var p :| p in left;
      InsertAscends(list, p);
      list := Insert(list, p);
      left := left - {p};
    }
  }

  datatype UsageBucket = UsageBucket(startAt: string, endAt: string, cost: Option<int>, usage: Option<Totals>)

  predicate InI64Period(p: Period) { InI64(p.0) && InI64(p.1) }

  /** The text of a valid date and clock time, which denote this many Unix seconds. */
  ghost predicate Prints(text: string, timestamp: int) {
    exists d: Date, second: nat :: ValidDate(d) && second < 86400 && Denoted(d, second, timestamp, text)
  }

  predicate Denoted(d: Date, second: nat, timestamp: int, text: string)
    requires ValidDate(d)
  {
    DayNumber(d) * 86400 + second == timestamp && text == InstantText(d, second)
  }

  lemma PrintsOnce(timestamp: int)
    requires InI64(timestamp)
    ensures UnixSecondsToUtc(timestamp).Some? && Prints(UnixSecondsToUtc(timestamp).value, timestamp)
  {
    hide UnixSecondsToUtc, InstantText, DayNumber;
    UnixSecondsPrint(timestamp);
    assert Denoted(DateAt(timestamp), timestamp % 86400, timestamp, UnixSecondsToUtc(timestamp).value);
  }

  /** A hundred times the worth, rounded half away from zero. */
  ghost function Cents(cost: Decimal): int { Rounded(100.0 * Worth(cost)) }

  /** One bucket per period, strictly in time order, with what its usage and its cost are;
      failure exactly when some cost does not fit 64 bits. */
  method MergeBuckets(usage: map<Period, Totals>, costs: map<Period, Decimal>)
    returns (r: Result<seq<UsageBucket>>, ghost periods: seq<Period>)
    requires forall p :: p in usage || p in costs ==> InI64Period(p)
    requires forall p :: p in costs ==> InI128(costs[p].coefficient)
    ensures Ascending(periods) && forall p :: p in periods <==> p in usage || p in costs
    ensures r.Failure? <==> exists p :: p in costs && !InI64(Cents(costs[p]))
    ensures r.Success? ==> |r.value| == |periods|
    ensures r.Success? ==> forall i :: 0 <= i < |periods| ==>
      Prints(r.value[i].startAt, periods[i].0) && Prints(r.value[i].endAt, periods[i].1)
    ensures r.Success? ==> forall i :: 0 <= i < |periods| ==>
      r.value[i].cost == if periods[i] in costs then Some(Cents(costs[periods[i]])) else None
    ensures r.Success? ==> forall i :: 0 <= i < |periods| ==>
      r.value[i].usage == if periods[i] in usage then Some(usage[periods[i]]) else None
  {
    hide ToMinorUnits, UnixSecondsToUtc, Prints, Cents;
    var list := SortedPeriods(usage.Keys + costs.Keys);
    periods := list;
    var buckets: seq<UsageBucket> := [];
    for i := 0 to |list|
      invariant |buckets| == i
      invariant forall k :: 0 <= k < i ==> Prints(buckets[k].startAt, list[k].0) && Prints(buckets[k].endAt, list[k].1)
      invariant forall k :: 0 <= k < i ==> buckets[k].cost == if list[k] in costs then Some(Cents(costs[list[k]])) else None
      invariant forall k :: 0 <= k < i ==> buckets[k].usage == if list[k] in usage then Some(usage[list[k]]) else None
      invariant forall k :: 0 <= k < i && list[k] in costs ==> InI64(Cents(costs[list[k]]))
    {
      var p := list[i];
      assert p in list;
      PrintsOnce(p.0);
      PrintsOnce(p.1);
      var cost: Option<int> := None;
      if p in costs {
        CentsPrint(costs[p]);
        var cents := ToMinorUnits(costs[p]);
        if cents.Failure? { return Failure, periods; }
        cost := Some(cents.value);
      }
      var start, end := UnixSecondsToUtc(p.0), UnixSecondsToUtc(p.1);
      if start.None? || end.None? { return Failure, periods; }
      buckets := buckets + [UsageBucket(start.value, end.value, cost, if p in usage then Some(usage[p]) else None)];
    }
    forall p | p in costs ensures InI64(Cents(costs[p])) {
      assert p in list;
      var k :| 0 <= k < |list| && list[k] == p;
    }
    r := Success(buckets);
  }

  lemma CentsPrint(cost: Decimal)
    requires InI128(cost.coefficient)
    ensures ToMinorUnits(cost) == if InI64(Cents(cost)) then Success(Cents(cost)) else Failure
  {
    MinorUnitsRound(cost);
  }

  // ---- Budgets ----

  /** The costs of the periods that start no earlier than `start`, in map order. */
  function Since(list: seq<Period>, costs: map<Period, Decimal>, start: int): seq<Decimal> {
    if list == [] then []
    else (if list[0] in costs && list[0].0 >= start then [costs[list[0]]] else []) + Since(list[1..], costs, start)
  }

  /** What a period has spent, in cents. */
  method BudgetSpent(list: seq<Period>, costs: map<Period, Decimal>, start: int) returns (r: Result<int>)
    requires Ascending(list) && forall p :: p in list ==> p in costs
    ensures var total := Total(Since(list, costs, start));
      r == if total.Failure? then Failure else ToMinorUnits(total.value)
  {
    var total := Zero;
    assert list[..0] == [] && Total(Since(list[..0], costs, start)) == Success(total);
    hide CheckedAdd, ToMinorUnits, Ascending, Since, Total;
    for i := 0 to |list|
      invariant Total(Since(list[..i], costs, start)) == Success(total)
    {
      SinceAdds(list, costs, start, i);
      assert Since(list[..i], costs, start) + [] == Since(list[..i], costs, start);
      if list[i].0 >= start {
        var sum := CheckedAdd(total, costs[list[i]]);
        TotalAdds(Since(list[..i], costs, start), costs[list[i]]);
        if sum.Failure? {
          SinceFails(list, costs, start, i + 1);
          return Failure;
        }
        total := sum.value;
      }
    }
    assert list[..|list|] == list;
    r := ToMinorUnits(total);
  }

  lemma {:induction false} SinceJoins(a: seq<Period>, b: seq<Period>, costs: map<Period, Decimal>, start: int)
    ensures Since(a + b, costs, start) == Since(a, costs, start) + Since(b, costs, start)
    decreases |a|
  {
    if a == [] {
      assert a + b == b;
    } else {
      SinceJoins(a[1..], b, costs, start);
      assert (a + b)[1..] == a[1..] + b && (a + b)[0] == a[0];
      var first := if a[0] in costs && a[0].0 >= start then [costs[a[0]]] else [];
      var rest, more := Since(a[1..], costs, start), Since(b, costs, start);
      assert first + rest + more == first + (rest + more);
    }
  }

  lemma SinceFails(list: seq<Period>, costs: map<Period, Decimal>, start: int, i: nat)
    requires i <= |list| && Total(Since(list[..i], costs, start)).Failure?
    ensures Total(Since(list, costs, start)).Failure?
  {
    hide Total, Since;
    SinceJoins(list[..i], list[i..], costs, start);
    assert list == list[..i] + list[i..];
    TotalStaysFailed(Since(list[..i], costs, start), Since(list[i..], costs, start));
  }

  lemma SinceAdds(list: seq<Period>, costs: map<Period, Decimal>, start: int, i: nat)
    requires i < |list| && list[i] in costs
    ensures Since(list[..i + 1], costs, start)
         == Since(list[..i], costs, start) + if list[i].0 >= start then [costs[list[i]]] else []
  {
    assert list[..i + 1] == list[..i] + [list[i]];
    SinceJoins(list[..i], [list[i]], costs, start);
    assert [list[i]][1..] == [];
  }

  lemma TotalAdds(amounts: seq<Decimal>, a: Decimal)
    ensures Total(amounts + [a]) == if Total(amounts).Failure? then Failure else CheckedAdd(Total(amounts).value, a)
  {
    assert (amounts + [a])[..|amounts|] == amounts;
  }

  lemma {:induction false} TotalStaysFailed(amounts: seq<Decimal>, more: seq<Decimal>)
    requires Total(amounts).Failure?
    ensures Total(amounts + more).Failure?
    decreases |more|
  {
    if more == [] {
      assert amounts + more == amounts;
    } else {
      TotalStaysFailed(amounts, more[..|more| - 1]);
      assert (amounts + more)[..|amounts + more| - 1] == amounts + more[..|more| - 1];
    }
  }

  lemma {:induction false} SinceHolds(list: seq<Period>, costs: map<Period, Decimal>, start: int)
    requires forall p :: p in costs ==> Canonical(costs[p]) && ToMinorUnits(costs[p]).Success?
    ensures AllCanonical(Since(list, costs, start)) && AllPrint(Since(list, costs, start))
    decreases |list|
  {
    hide Canonical, ToMinorUnits;
    if list != [] { SinceHolds(list[1..], costs, start); }
  }

  /** A printed budget differs from the printed buckets it covers by at most half a cent per
      bucket, and half a cent of its own. */
  lemma BudgetDrift(list: seq<Period>, costs: map<Period, Decimal>, start: int, entries: seq<Entry<Cost>>,
      periods: set<Period>)
    requires Holds(costs, entries, periods) && forall p :: p in costs ==> ToMinorUnits(costs[p]).Success?
    requires var total := Total(Since(list, costs, start)); total.Success? && ToMinorUnits(total.value).Success?
    ensures var amounts := Since(list, costs, start);
      2 * Magnitude(ToMinorUnits(Total(amounts).value).value - CentsOfAll(amounts)) <= |amounts| + 1
  {
    hide Canonical, ToMinorUnits, WorthUnder;
    SinceHolds(list, costs, start);
    PeriodDrift(Since(list, costs, start));
  }

  /** What all rows of the periods from `start` on are worth together. */
  ghost function WorthSince(entries: seq<Entry<Cost>>, start: int): real {
    if entries == [] then 0.0
    else
      var last := entries[|entries| - 1];
      WorthSince(entries[..|entries| - 1], start) + if last.period.0 >= start then WorthOf(last.row) else 0.0
  }

  /** The same rows, period by period. */
  ghost function WorthListed(list: seq<Period>, entries: seq<Entry<Cost>>, start: int): real {
    if list == [] then 0.0
    else (if list[0].0 >= start then WorthUnder(entries, list[0]) else 0.0) + WorthListed(list[1..], entries, start)
  }

  lemma {:induction false} WorthListedGrows(list: seq<Period>, entries: seq<Entry<Cost>>, e: Entry<Cost>, start: int)
    requires Distinct(list)
    ensures WorthListed(list, entries + [e], start)
         == WorthListed(list, entries, start) + if e.period in list && e.period.0 >= start then WorthOf(e.row) else 0.0
    decreases |list|
  {
    hide WorthOf;
    if list != [] {
      assert list == [list[0]] + list[1..] && list[0] !in list[1..];
      WorthListedGrows(list[1..], entries, e, start);
      WorthJoins(entries, [e], list[0]);
      assert [e][..0] == [];
    }
  }

  lemma {:induction false} WorthListedNothing(list: seq<Period>, start: int)
    ensures WorthListed(list, [], start) == 0.0
  {
    if list != [] { WorthListedNothing(list[1..], start); }
  }

  lemma {:induction false} ListedIsSince(list: seq<Period>, entries: seq<Entry<Cost>>, start: int)
    requires Distinct(list) && forall e :: e in entries ==> e.period in list
    ensures WorthListed(list, entries, start) == WorthSince(entries, start)
    decreases |entries|
  {
    hide WorthOf;
    if entries == [] {
      WorthListedNothing(list, start);
    } else {
      var front, last := entries[..|entries| - 1], entries[|entries| - 1];
      assert entries == front + [last] && last in entries;
      ListedIsSince(list, front, start);
      WorthListedGrows(list, front, last, start);
    }
  }

  lemma {:induction false} WorthOfAllJoins(a: seq<Decimal>, b: seq<Decimal>)
    ensures WorthOfAll(a + b) == WorthOfAll(a) + WorthOfAll(b)
    decreases |b|
  {
    hide Worth;
    if b == [] {
      assert a + b == a;
    } else {
      WorthOfAllJoins(a, b[..|b| - 1]);
      assert (a + b)[..|a + b| - 1] == a + b[..|b| - 1];
    }
  }

  lemma {:induction false} SinceIsListed(list: seq<Period>, costs: map<Period, Decimal>, start: int,
      entries: seq<Entry<Cost>>)
    requires forall p :: p in list ==> p in costs && Worth(costs[p]) == WorthUnder(entries, p)
    ensures WorthOfAll(Since(list, costs, start)) == WorthListed(list, entries, start)
    decreases |list|
  {
    hide Worth, WorthUnder;
    if list != [] {
      assert list[0] in list;
      SinceIsListed(list[1..], costs, start, entries);
      var first := if list[0].0 >= start then [costs[list[0]]] else [];
      WorthOfAllJoins(first, Since(list[1..], costs, start));
      assert first != [] ==> first[..0] == [];
    }
  }

  lemma AscendingDistinct(list: seq<Period>)
    requires Ascending(list)
    ensures Distinct(list)
  {}

  /** A period has spent what all rows of the buckets it covers are worth together, and prints
      that in whole cents, rounded once. */
  lemma BudgetIsRows(list: seq<Period>, costs: map<Period, Decimal>, start: int, entries: seq<Entry<Cost>>,
      periods: set<Period>)
    requires Holds(costs, entries, periods) && Ascending(list) && forall p :: p in list <==> p in periods
    requires Total(Since(list, costs, start)).Success?
    ensures var spent := ToMinorUnits(Total(Since(list, costs, start)).value);
            var cents := Rounded(100.0 * WorthSince(entries, start));
      spent == if InI64(cents) then Success(cents) else Failure
  {
    hide Canonical, Worth, WorthUnder, Since, Total, ToMinorUnits, Rounded, AllReadable;
    var amounts := Since(list, costs, start);
    SinceCanonical(list, costs, start);
    TotalIsExact(amounts);
    CanonicalIsSmall(Total(amounts).value);
    MinorUnitsRound(Total(amounts).value);
    SinceIsListed(list, costs, start, entries);
    AscendingDistinct(list);
    ListedIsSince(list, entries, start);
  }

  lemma {:induction false} SinceCanonical(list: seq<Period>, costs: map<Period, Decimal>, start: int)
    requires forall p :: p in costs ==> Canonical(costs[p])
    ensures AllCanonical(Since(list, costs, start))
    decreases |list|
  {
    hide Canonical;
    if list != [] { SinceCanonical(list[1..], costs, start); }
  }
}
