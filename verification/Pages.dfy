/** Report pages: buckets of rows, each bucket covering one period of Unix time. */
module Pages {
  type Period = (int, int)

  datatype Bucket<R> = Bucket(start: int, end: int, rows: seq<R>)
  datatype Entry<R> = Entry(period: Period, row: R)

  function EntriesOf<R>(b: Bucket<R>): seq<Entry<R>> {
    seq(|b.rows|, i requires 0 <= i < |b.rows| => Entry((b.start, b.end), b.rows[i]))
  }

  function Flat<R>(buckets: seq<Bucket<R>>): seq<Entry<R>> {
    if buckets == [] then [] else Flat(buckets[..|buckets| - 1]) + EntriesOf(buckets[|buckets| - 1])
  }

  function Joined<T>(pages: seq<seq<T>>): seq<T> {
    if pages == [] then [] else Joined(pages[..|pages| - 1]) + pages[|pages| - 1]
  }

  function Periods<R>(buckets: seq<Bucket<R>>): set<Period> {
    set i | 0 <= i < |buckets| :: (buckets[i].start, buckets[i].end)
  }

  lemma EntryAt<R>(b: Bucket, i: nat)
    requires i < |b.rows|
    ensures |EntriesOf(b)| == |b.rows| && EntriesOf(b)[i] == Entry((b.start, b.end), b.rows[i])
  {}

  lemma {:induction false} FlatJoins<R>(a: seq<Bucket<R>>, b: seq<Bucket<R>>)
    ensures Flat(a + b) == Flat(a) + Flat(b)
    decreases |b|
  {
    hide EntriesOf;
    if b == [] {
      assert a + b == a;
    } else {
      FlatJoins(a, b[..|b| - 1]);
      assert (a + b)[..|a + b| - 1] == a + b[..|b| - 1];
    }
  }

  lemma FlatAdds<R>(buckets: seq<Bucket<R>>, b: Bucket<R>)
    ensures Flat(buckets + [b]) == Flat(buckets) + EntriesOf(b)
    ensures Periods(buckets + [b]) == Periods(buckets) + {(b.start, b.end)}
  {
    var more := buckets + [b];
    assert more[..|buckets|] == buckets;
    hide Flat, EntriesOf;
    forall p | p in Periods(buckets) ensures p in Periods(more) {
      var i :| 0 <= i < |buckets| && (buckets[i].start, buckets[i].end) == p;
      assert (more[i].start, more[i].end) == p;
    }
    assert (more[|buckets|].start, more[|buckets|].end) == (b.start, b.end);
  }

  lemma JoinedAt<T>(pages: seq<seq<T>>, i: nat)
    requires i < |pages|
    ensures Joined(pages[..i + 1]) == Joined(pages[..i]) + pages[i]
  {
    assert pages[..i + 1][..i] == pages[..i];
  }

  lemma {:induction false} JoinedRest<T>(pages: seq<seq<T>>, i: nat)
    requires i <= |pages|
    ensures Joined(pages) == Joined(pages[..i]) + Joined(pages[i..])
    decreases |pages|
  {
    if i == |pages| {
      assert pages[..i] == pages && pages[i..] == [];
    } else {
      var front := pages[..|pages| - 1];
      JoinedRest(front, i);
      assert front[..i] == pages[..i] && pages[i..][..|pages[i..]| - 1] == front[i..];
    }
  }

  // ---- Order ----

  lemma TakeOut<T>(s: seq<T>, i: nat)
    requires i < |s|
    ensures multiset(s[..i] + s[i + 1..]) == multiset(s) - multiset{s[i]}
  {
    assert s == s[..i] + [s[i]] + s[i + 1..];
  }

  lemma TakeLast<T>(s: seq<T>)
    requires s != []
    ensures multiset(s[..|s| - 1]) == multiset(s) - multiset{s[|s| - 1]}
  {
    assert s == s[..|s| - 1] + [s[|s| - 1]];
  }

  /** Reordered buckets hold reordered rows. */
  lemma {:induction false} FlatPermutes<R>(a: seq<Bucket<R>>, b: seq<Bucket<R>>)
    requires multiset(a) == multiset(b)
    ensures multiset(Flat(a)) == multiset(Flat(b))
    decreases |a|
  {
    if a == [] {
      assert |multiset(b)| == 0 && b == [];
    } else {
      var last := a[|a| - 1];
      TakeLast(a);
      assert last in multiset(b);
      var i :| 0 <= i < |b| && b[i] == last;
      TakeOut(b, i);
      var rest := b[..i] + b[i + 1..];
      FlatPermutes(a[..|a| - 1], rest);
      assert b == b[..i] + [last] + b[i + 1..];
      FlatJoins(b[..i] + [last], b[i + 1..]);
      FlatJoins(b[..i], [last]);
      FlatJoins(b[..i], b[i + 1..]);
      assert Flat([last]) == EntriesOf(last);
    }
  }

  lemma PeriodsPermute<R>(a: seq<Bucket<R>>, b: seq<Bucket<R>>)
    requires multiset(a) == multiset(b)
    ensures Periods(a) == Periods(b)
  {
    SamePeriods(a, b);
    SamePeriods(b, a);
  }

  lemma SamePeriods<R>(a: seq<Bucket<R>>, b: seq<Bucket<R>>)
    requires multiset(a) == multiset(b)
    ensures Periods(a) <= Periods(b)
  {
    forall p | p in Periods(a) ensures p in Periods(b) {
      var i :| 0 <= i < |a| && (a[i].start, a[i].end) == p;
      assert a[i] in multiset(b);
      var j :| 0 <= j < |b| && b[j] == a[i];
      assert (b[j].start, b[j].end) == p;
    }
  }
}
