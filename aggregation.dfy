/** The figures the dashboard and analysis pages compute from the loaded
    entries (app.py, `dashboard` and `analysis`): totals per type, the
    latest five records, and sums grouped by month, year and category. */
module Aggregation {
  import opened Wrappers
  import opened Records

  const Earning: string := "Earning"
  const Spend: string := "Spend"
  const Investment: string := "Investment"

  /** `pd.to_numeric(amount, errors='coerce')` followed by `sum()`: an
      amount that does not parse becomes NaN, which a sum skips. */
  function Amount(p: Parsers, e: Entry): int {
    p.amount(e.row.amount).GetOr(0)
  }

  /** What `e` adds to the sum of the entries of type `kind`. */
  function Share(p: Parsers, e: Entry, kind: string): int {
    if e.row.kind == kind then Amount(p, e) else 0
  }

  /** `df[df['type'] == kind]['amount'].sum()`. */
  function KindTotal(p: Parsers, es: seq<Entry>, kind: string): int {
    if es == [] then 0 else Share(p, es[0], kind) + KindTotal(p, es[1..], kind)
  }

  lemma {:induction false} KindTotalConcat(p: Parsers, a: seq<Entry>, b: seq<Entry>, kind: string)
    ensures KindTotal(p, a + b, kind) == KindTotal(p, a, kind) + KindTotal(p, b, kind)
  {
    if a != [] {
      assert (a + b)[0] == a[0] && (a + b)[1..] == a[1..] + b;
      KindTotalConcat(p, a[1..], b, kind);
    } else {
      assert a + b == b;
    }
  }

  /** Splitting the entries by a condition splits the total: the part
      that meets it plus the part that does not. */
  lemma {:induction false} KindTotalSplit(p: Parsers, es: seq<Entry>, kind: string,
                                          f: Entry -> bool, g: Entry -> bool)
    requires forall e :: g(e) == !f(e)
    ensures KindTotal(p, es, kind) == KindTotal(p, Keep(es, f), kind) + KindTotal(p, Keep(es, g), kind)
  {
    if es != [] {
      KindTotalSplit(p, es[1..], kind, f, g);
      var head := if f(es[0]) then [es[0]] else [];
      var rest := if g(es[0]) then [es[0]] else [];
      KindTotalConcat(p, head, Keep(es[1..], f), kind);
      KindTotalConcat(p, rest, Keep(es[1..], g), kind);
    }
  }

  /** Taking out the element at `j` takes one copy of it out of the
      multiset. */
  lemma MultisetRemove(b: seq<Entry>, j: nat)
    requires j < |b|
    ensures multiset(b[..j] + b[j + 1..]) == multiset(b) - multiset{b[j]}
  {
    assert b == b[..j] + [b[j]] + b[j + 1..];
  }

  /** The total is the share of the element at `j` plus the total of
      the others. */
  lemma KindTotalRemove(p: Parsers, b: seq<Entry>, j: nat, kind: string)
    requires j < |b|
    ensures KindTotal(p, b, kind) == Share(p, b[j], kind) + KindTotal(p, b[..j] + b[j + 1..], kind)
  {
    assert b == b[..j] + ([b[j]] + b[j + 1..]);
    KindTotalConcat(p, b[..j], [b[j]] + b[j + 1..], kind);
    KindTotalConcat(p, [b[j]], b[j + 1..], kind);
    KindTotalConcat(p, b[..j], b[j + 1..], kind);
    assert KindTotal(p, [b[j]], kind) == Share(p, b[j], kind);
  }

  /** A total does not depend on the order of the entries. */
  lemma {:induction false} KindTotalPermutation(p: Parsers, a: seq<Entry>, b: seq<Entry>, kind: string)
    requires multiset(a) == multiset(b)
    ensures KindTotal(p, a, kind) == KindTotal(p, b, kind)
    decreases |a|
  {
    if a == [] {
      assert |b| == |multiset(b)| == 0;
    } else {
      var e := a[0];
      assert e in multiset(b);
      var j :| 0 <= j < |b| && b[j] == e;
      var rest := b[..j] + b[j + 1..];
      MultisetRemove(b, j);
      assert a == [e] + a[1..];
      assert multiset(a[1..]) == multiset(a) - multiset{e};
      KindTotalPermutation(p, a[1..], rest, kind);
      KindTotalRemove(p, b, j, kind);
    }
  }

  // ---------------------------------------------------------------------
  // Dashboard totals

  datatype Totals = Totals(earnings: int, spends: int, investments: int, savings: int)

  /** The dashboard's summary: the sum of each type, and savings as
      earnings less spends; investments are shown but never subtracted. */
  function Summary(p: Parsers, es: seq<Entry>): (t: Totals)
    ensures t.savings == t.earnings - t.spends
  {
    var earnings := KindTotal(p, es, Earning);
    var spends := KindTotal(p, es, Spend);
    Totals(earnings, spends, KindTotal(p, es, Investment), earnings - spends)
  }

  /** One more entry moves exactly the total of its own type, by its
      amount, and moves savings only when it is an earning or a spend. */
  lemma SummaryAppend(p: Parsers, es: seq<Entry>, e: Entry)
    ensures var before, after, a := Summary(p, es), Summary(p, es + [e]), Amount(p, e);
      after.earnings == before.earnings + (if e.row.kind == Earning then a else 0)
      && after.spends == before.spends + (if e.row.kind == Spend then a else 0)
      && after.investments == before.investments + (if e.row.kind == Investment then a else 0)
      && after.savings == before.savings
           + (if e.row.kind == Earning then a else if e.row.kind == Spend then -a else 0)
  {
    KindTotalConcat(p, es, [e], Earning);
    KindTotalConcat(p, es, [e], Spend);
    KindTotalConcat(p, es, [e], Investment);
  }

  /** The summary does not depend on the order of the file. */
  lemma SummaryPermutation(p: Parsers, a: seq<Entry>, b: seq<Entry>)
    requires multiset(a) == multiset(b)
    ensures Summary(p, a) == Summary(p, b)
  {
    KindTotalPermutation(p, a, b, Earning);
    KindTotalPermutation(p, a, b, Spend);
    KindTotalPermutation(p, a, b, Investment);
  }

  // ---------------------------------------------------------------------
  // The latest records

  /** Newest first: no entry is dated after one before it. */
  predicate SortedDesc(s: seq<Entry>) {
    forall i, j :: 0 <= i < j < |s| ==> DateLe(s[j].date, s[i].date)
  }

  /** `e` placed into a newest-first sequence ahead of the first entry
      that is not later than it. */
  function Insert(e: Entry, s: seq<Entry>): (r: seq<Entry>)
    ensures multiset(r) == multiset(s) + multiset{e}
  {
    if s == [] then [e]
    else if DateLe(s[0].date, e.date) then [e] + s
    else
      assert s == [s[0]] + s[1..];
      [s[0]] + Insert(e, s[1..])
  }

  /** Inserting into a newest-first sequence keeps it newest first. */
  lemma {:induction false} InsertKeepsSorted(e: Entry, s: seq<Entry>)
    requires SortedDesc(s)
    ensures SortedDesc(Insert(e, s))
  {
    if s == [] {
    } else if DateLe(s[0].date, e.date) {
      var r := Insert(e, s);
      forall i, j | 0 <= i < j < |r| ensures DateLe(r[j].date, r[i].date) {
        if i == 0 {
          DateLeTransitive(r[j].date, s[0].date, e.date);
        } else {
          assert r[i] == s[i - 1] && r[j] == s[j - 1];
        }
      }
    } else {
      var rest := Insert(e, s[1..]);
      InsertKeepsSorted(e, s[1..]);
      DateLeTotal(s[0].date, e.date);
      var r := [s[0]] + rest;
      forall i, j | 0 <= i < j < |r| ensures DateLe(r[j].date, r[i].date) {
        if i == 0 {
          var x := rest[j - 1];
          assert x in multiset(rest);
          assert x == e || x in multiset(s[1..]);
          if x != e {
            var k :| 0 <= k < |s[1..]| && s[1..][k] == x;
            assert s[k + 1] == x;
          }
        } else {
          assert r[i] == rest[i - 1] && r[j] == rest[j - 1];
        }
      }
    }
  }

  /** `df.sort_values('date', ascending=False)`. */
  function SortDesc(es: seq<Entry>): (r: seq<Entry>)
    ensures multiset(r) == multiset(es)
    ensures SortedDesc(r)
  {
    if es == [] then []
    else
      assert es == [es[0]] + es[1..];
      var rest := SortDesc(es[1..]);
      InsertKeepsSorted(es[0], rest);
      Insert(es[0], rest)
  }

  function Min(a: int, b: int): int {
    if a <= b then a else b
  }

  /** `.head(5)` of the newest-first order. */
  function Latest(es: seq<Entry>): seq<Entry> {
    var s := SortDesc(es);
    s[..Min(5, |s|)]
  }

  /** The dashboard lists at most five entries, newest first, all taken
      from the file. */
  lemma LatestIsNewestFirst(es: seq<Entry>)
    ensures |Latest(es)| == Min(5, |es|)
    ensures SortedDesc(Latest(es))
    ensures multiset(Latest(es)) <= multiset(es)
  {
    var s := SortDesc(es);
    var n := Min(5, |s|);
    var shown := s[..n];
    forall i, j | 0 <= i < j < |shown|
      ensures DateLe(shown[j].date, shown[i].date)
    {
      assert shown[i] == s[i] && shown[j] == s[j];
    }
    assert s == shown + s[n..];
    assert multiset(s) == multiset(shown) + multiset(s[n..]);
  }

  /** In a newest-first sequence, everything after a cut is no later
      than everything before it. */
  lemma SortedCut(s: seq<Entry>, n: nat)
    requires SortedDesc(s) && n <= |s|
    ensures forall x, y :: x in s[n..] && y in s[..n] ==> DateLe(x.date, y.date)
  {
    forall x, y | x in s[n..] && y in s[..n]
      ensures DateLe(x.date, y.date)
    {
      var j :| 0 <= j < |s[n..]| && s[n..][j] == x;
      var i :| 0 <= i < |s[..n]| && s[..n][i] == y;
      assert s[n + j] == x && s[i] == y;
    }
  }

  /** What a prefix leaves out of a sequence is in the rest of it. */
  lemma OmittedIsInRest(es: seq<Entry>, s: seq<Entry>, n: nat, x: Entry)
    requires multiset(s) == multiset(es) && n <= |s|
    requires x in multiset(es) - multiset(s[..n])
    ensures x in s[n..]
  {
    assert s == s[..n] + s[n..];
    assert multiset(es) == multiset(s[..n]) + multiset(s[n..]);
    assert x in multiset(s[n..]);
  }

  /** Every entry the dashboard leaves out is no later than every entry
      it shows. */
  lemma LatestIsTopFive(es: seq<Entry>)
    ensures forall x, y :: x in multiset(es) - multiset(Latest(es)) && y in Latest(es) ==> DateLe(x.date, y.date)
  {
    var s := SortDesc(es);
    var n := Min(5, |s|);
    SortedCut(s, n);
    forall x | x in multiset(es) - multiset(s[..n])
      ensures x in s[n..]
    {
      OmittedIsInRest(es, s, n, x);
    }
  }

  // ---------------------------------------------------------------------
  // Grouped sums

  /** The dashboard's and analysis page's month (`strftime('%Y-%m')`). */
  function MonthOf(e: Entry): (int, int) {
    (e.date.year, e.date.month)
  }

  /** The analysis page's year (`dt.year`). */
  function YearOf(e: Entry): int {
    e.date.year
  }

  function CategoryOf(e: Entry): string {
    e.row.category
  }

  /** The sum of the entries of type `kind` whose group is `k`. */
  function KeyedTotal<K(==)>(p: Parsers, es: seq<Entry>, kind: string, key: Entry -> K, k: K): int {
    if es == [] then 0
    else (if key(es[0]) == k then Share(p, es[0], kind) else 0) + KeyedTotal(p, es[1..], kind, key, k)
  }

  /** The groups that have at least one entry of type `kind`. */
  function GroupKeys<K(==)>(es: seq<Entry>, kind: string, key: Entry -> K): set<K> {
    set i | 0 <= i < |es| && es[i].row.kind == kind :: key(es[i])
  }

  /** `df[df['type'] == kind].groupby(key)['amount'].sum().to_dict()`. */
  function Buckets<K(==)>(p: Parsers, es: seq<Entry>, kind: string, key: Entry -> K): map<K, int> {
    map k | k in GroupKeys(es, kind, key) :: KeyedTotal(p, es, kind, key, k)
  }

  lemma {:induction false} KeyedTotalConcat<K>(p: Parsers, a: seq<Entry>, b: seq<Entry>, kind: string, key: Entry -> K, k: K)
    ensures KeyedTotal(p, a + b, kind, key, k) == KeyedTotal(p, a, kind, key, k) + KeyedTotal(p, b, kind, key, k)
  {
    if a != [] {
      assert (a + b)[0] == a[0] && (a + b)[1..] == a[1..] + b;
      KeyedTotalConcat(p, a[1..], b, kind, key, k);
    } else {
      assert a + b == b;
    }
  }

  /** A group without entries of type `kind` sums to zero. */
  lemma {:induction false} KeyedTotalAbsent<K>(p: Parsers, es: seq<Entry>, kind: string, key: Entry -> K, k: K)
    requires k !in GroupKeys(es, kind, key)
    ensures KeyedTotal(p, es, kind, key, k) == 0
  {
    if es != [] {
      assert GroupKeys(es[1..], kind, key) <= GroupKeys(es, kind, key) by {
        forall x | x in GroupKeys(es[1..], kind, key) ensures x in GroupKeys(es, kind, key) {
          var i :| 0 <= i < |es[1..]| && es[1..][i].row.kind == kind && key(es[1..][i]) == x;
          assert es[i + 1] == es[1..][i];
        }
      }
      if es[0].row.kind == kind {
        assert key(es[0]) in GroupKeys(es, kind, key) by {
          assert es[0] == es[0];
        }
      }
      KeyedTotalAbsent(p, es[1..], kind, key, k);
    }
  }

  /** Adding an entry changes only the bucket of its own group, and only
      when it has the bucket's type: it adds its amount there. */
  lemma AppendTouchesOwnBucket<K>(p: Parsers, es: seq<Entry>, e: Entry, kind: string, key: Entry -> K)
    ensures var before, after := Buckets(p, es, kind, key), Buckets(p, es + [e], kind, key);
      (forall k :: k != key(e) || e.row.kind != kind ==> (k in after <==> k in before))
      && (forall k :: k in before && (k != key(e) || e.row.kind != kind) ==> after[k] == before[k])
      && (e.row.kind == kind ==>
            (key(e) in after && after[key(e)] == (if key(e) in before then before[key(e)] else 0) + Amount(p, e)))
  {
    var s := es + [e];
    assert GroupKeys(s, kind, key) == GroupKeys(es, kind, key) + (if e.row.kind == kind then {key(e)} else {}) by {
      forall x | x in GroupKeys(s, kind, key)
        ensures x in GroupKeys(es, kind, key) || (e.row.kind == kind && x == key(e))
      {
        var i :| 0 <= i < |s| && s[i].row.kind == kind && key(s[i]) == x;
        if i < |es| {
          assert s[i] == es[i];
        }
      }
      forall x | x in GroupKeys(es, kind, key)
        ensures x in GroupKeys(s, kind, key)
      {
        var i :| 0 <= i < |es| && es[i].row.kind == kind && key(es[i]) == x;
        assert s[i] == es[i];
      }
      if e.row.kind == kind {
        assert s[|es|] == e;
      }
    }
    forall k
      ensures KeyedTotal(p, s, kind, key, k)
              == KeyedTotal(p, es, kind, key, k) + (if key(e) == k then Share(p, e, kind) else 0)
    {
      KeyedTotalConcat(p, es, [e], kind, key, k);
    }
    if e.row.kind == kind && key(e) !in GroupKeys(es, kind, key) {
      KeyedTotalAbsent(p, es, kind, key, key(e));
    }
    var before, after := Buckets(p, es, kind, key), Buckets(p, s, kind, key);
    forall k | k in before && (k != key(e) || e.row.kind != kind)
      ensures after[k] == before[k]
    {
      assert k in after;
      assert after[k] == KeyedTotal(p, s, kind, key, k);
      assert before[k] == KeyedTotal(p, es, kind, key, k);
    }
    if e.row.kind == kind {
      assert key(e) in after;
      assert after[key(e)] == KeyedTotal(p, es, kind, key, key(e)) + Amount(p, e);
      if key(e) in before {
        assert before[key(e)] == KeyedTotal(p, es, kind, key, key(e));
      }
    }
  }

  /** The sum of `KeyedTotal` over the groups `ks`. */
  function SumKeyed<K(==)>(p: Parsers, es: seq<Entry>, kind: string, key: Entry -> K, ks: seq<K>): int {
    if ks == [] then 0 else KeyedTotal(p, es, kind, key, ks[0]) + SumKeyed(p, es, kind, key, ks[1..])
  }

  predicate Distinct<K(==)>(ks: seq<K>) {
    forall i, j :: 0 <= i < j < |ks| ==> ks[i] != ks[j]
  }

  lemma {:induction false} SumKeyedConcat<K>(p: Parsers, a: seq<Entry>, b: seq<Entry>, kind: string, key: Entry -> K, ks: seq<K>)
    ensures SumKeyed(p, a + b, kind, key, ks) == SumKeyed(p, a, kind, key, ks) + SumKeyed(p, b, kind, key, ks)
  {
    if ks != [] {
      KeyedTotalConcat(p, a, b, kind, key, ks[0]);
      SumKeyedConcat(p, a, b, kind, key, ks[1..]);
    }
  }

  /** One entry's share lands in exactly one of a list of distinct groups
      that names its group. */
  lemma {:induction false} SumKeyedSingle<K>(p: Parsers, e: Entry, kind: string, key: Entry -> K, ks: seq<K>)
    requires Distinct(ks)
    ensures SumKeyed(p, [e], kind, key, ks) == if key(e) in ks then Share(p, e, kind) else 0
  {
    if ks != [] {
      SumKeyedSingle(p, e, kind, key, ks[1..]);
      assert [e][1..] == [];
      if ks[0] == key(e) {
        assert KeyedTotal(p, [e], kind, key, ks[0]) == Share(p, e, kind);
        assert key(e) !in ks[1..] by {
          forall j | 0 <= j < |ks[1..]| ensures ks[1..][j] != key(e) {
            assert ks[1..][j] == ks[j + 1];
          }
        }
      } else {
        assert ks == [ks[0]] + ks[1..];
        assert key(e) in ks <==> key(e) in ks[1..];
        assert KeyedTotal(p, [e], kind, key, ks[0]) == 0;
      }
    }
  }

  /** The groups of a type split its total: summing the group totals
      over a repetition-free list of groups that includes every group
      with an entry of that type gives the type's total. */
  lemma {:induction false} GroupsPartitionTotal<K>(p: Parsers, es: seq<Entry>, kind: string, key: Entry -> K, ks: seq<K>)
    requires Distinct(ks)
    requires forall k :: k in GroupKeys(es, kind, key) ==> k in ks
    ensures SumKeyed(p, es, kind, key, ks) == KindTotal(p, es, kind)
  {
    if es == [] {
      SumKeyedZero(p, kind, key, ks);
    } else {
      var e := es[0];
      assert es == [e] + es[1..];
      forall k | k in GroupKeys(es[1..], kind, key) ensures k in ks {
        var i :| 0 <= i < |es[1..]| && es[1..][i].row.kind == kind && key(es[1..][i]) == k;
        assert es[i + 1] == es[1..][i];
      }
      if e.row.kind == kind {
        assert key(e) in GroupKeys(es, kind, key) by {
          assert es[0] == e;
        }
      }
      GroupsPartitionTotal(p, es[1..], kind, key, ks);
      SumKeyedConcat(p, [e], es[1..], kind, key, ks);
      SumKeyedSingle(p, e, kind, key, ks);
    }
  }

  lemma {:induction false} SumKeyedZero<K>(p: Parsers, kind: string, key: Entry -> K, ks: seq<K>)
    ensures SumKeyed(p, [], kind, key, ks) == 0
  {
    if ks != [] {
      SumKeyedZero(p, kind, key, ks[1..]);
    }
  }

  /** The sum of the values of `m` at the keys `ks`. */
  function SumValues<K(==)>(m: map<K, int>, ks: seq<K>): int
    requires forall k :: k in ks ==> k in m
  {
    if ks == [] then 0 else m[ks[0]] + SumValues(m, ks[1..])
  }

  /** For each type, the buckets add up to the type's total: summed over
      any listing of the bucket keys without repetition. */
  lemma BucketsPartitionTotal<K>(p: Parsers, es: seq<Entry>, kind: string, key: Entry -> K, ks: seq<K>)
    requires Distinct(ks)
    requires forall k :: k in ks <==> k in Buckets(p, es, kind, key)
    ensures SumValues(Buckets(p, es, kind, key), ks) == KindTotal(p, es, kind)
  {
    forall k | k in GroupKeys(es, kind, key) ensures k in ks {
      ListedGroup(p, es, kind, key, ks, k);
    }
    BucketSumIsSumKeyed(p, es, kind, key, ks);
    GroupsPartitionTotal(p, es, kind, key, ks);
  }

  lemma ListedGroup<K>(p: Parsers, es: seq<Entry>, kind: string, key: Entry -> K, ks: seq<K>, k: K)
    requires forall k :: k in ks <==> k in Buckets(p, es, kind, key)
    requires k in GroupKeys(es, kind, key)
    ensures k in ks
  {
  }

  lemma {:induction false} BucketSumIsSumKeyed<K>(p: Parsers, es: seq<Entry>, kind: string, key: Entry -> K, ks: seq<K>)
    requires forall k :: k in ks ==> k in Buckets(p, es, kind, key)
    ensures SumValues(Buckets(p, es, kind, key), ks) == SumKeyed(p, es, kind, key, ks)
  {
    if ks != [] {
      assert ks[0] in ks;
      BucketSumIsSumKeyed(p, es, kind, key, ks[1..]);
    }
  }

  // ---------------------------------------------------------------------
  // The pages

  /** The types whose monthly buckets the dashboard charts. */
  const ChartedKinds: set<string> := {Earning, Spend, Investment}

  datatype DashboardView = DashboardView(totals: Totals, latest: seq<Entry>,
                                         monthly: map<string, map<(int, int), int>>)

  /** The monthly buckets of each charted type. */
  function Monthly(p: Parsers, es: seq<Entry>): map<string, map<(int, int), int>> {
    map t | t in ChartedKinds :: Buckets(p, es, t, MonthOf)
  }

  /** The dashboard of the loaded entries, with its own branch for a
      file that loads nothing. */
  function Dashboard(p: Parsers, rows: seq<Row>): DashboardView {
    var es := Load(p, rows);
    if es == [] then
      DashboardView(Totals(0, 0, 0, 0), [], map[Earning := map[], Spend := map[], Investment := map[]])
    else
      DashboardView(Summary(p, es), Latest(es), Monthly(p, es))
  }

  /** The dashboard's special case for an empty file shows zeros and no
      entries, which is what the general figures give: the page is the
      general figures of the loaded entries for every file. */
  lemma DashboardIsSummary(p: Parsers, rows: seq<Row>)
    ensures var es := Load(p, rows);
      Dashboard(p, rows) == DashboardView(Summary(p, es), Latest(es), Monthly(p, es))
    ensures Load(p, rows) == [] ==> Dashboard(p, rows).totals == Totals(0, 0, 0, 0)
  {
    var es := Load(p, rows);
    if es == [] {
      assert GroupKeys([], Earning, MonthOf) == {};
      assert GroupKeys([], Spend, MonthOf) == {};
      assert GroupKeys([], Investment, MonthOf) == {};
      assert Monthly(p, es) == map[Earning := map[], Spend := map[], Investment := map[]];
    }
  }

  /** On the dashboard, each charted type's monthly buckets add up to
      that type's total in the summary. */
  lemma MonthlyMatchesTotals(p: Parsers, rows: seq<Row>, t: string, months: seq<(int, int)>)
    requires t in ChartedKinds
    requires Distinct(months)
    requires forall m :: m in months <==> m in Dashboard(p, rows).monthly[t]
    ensures var d := Dashboard(p, rows);
      SumValues(d.monthly[t], months)
        == if t == Earning then d.totals.earnings else if t == Spend then d.totals.spends else d.totals.investments
  {
    DashboardIsSummary(p, rows);
    BucketsPartitionTotal(p, Load(p, rows), t, MonthOf, months);
  }

  /** The types that occur in the entries (the pivot's columns). */
  function KindsOf(es: seq<Entry>): set<string> {
    set i | 0 <= i < |es| :: es[i].row.kind
  }

  /** The groups that occur in the entries (the pivot's rows). */
  function AllKeys<K(==)>(es: seq<Entry>, key: Entry -> K): set<K> {
    set i | 0 <= i < |es| :: key(es[i])
  }

  /** `groupby([key, 'type']).sum().pivot(index=key, columns='type')
      .fillna(0).to_dict('index')`. */
  function Pivot<K(==)>(p: Parsers, es: seq<Entry>, key: Entry -> K): map<K, map<string, int>> {
    map k | k in AllKeys(es, key) :: map t | t in KindsOf(es) :: KeyedTotal(p, es, t, key, k)
  }

  /** Each cell of a pivot is that type's bucket for that group, or zero
      when the type has no entry in the group. */
  lemma PivotCell<K>(p: Parsers, es: seq<Entry>, key: Entry -> K, k: K, t: string)
    requires k in AllKeys(es, key) && t in KindsOf(es)
    ensures k in Pivot(p, es, key) && t in Pivot(p, es, key)[k]
    ensures var b := Buckets(p, es, t, key);
      Pivot(p, es, key)[k][t] == if k in b then b[k] else 0
  {
    if k !in GroupKeys(es, t, key) {
      KeyedTotalAbsent(p, es, t, key, k);
    }
  }

  /** Every bucket of every type present appears in the pivot: its rows
      are the groups that occur and its columns the types that occur. */
  lemma PivotCoversBuckets<K>(p: Parsers, es: seq<Entry>, key: Entry -> K, t: string, k: K)
    requires k in Buckets(p, es, t, key)
    ensures k in Pivot(p, es, key) && t in Pivot(p, es, key)[k]
    ensures Pivot(p, es, key)[k][t] == Buckets(p, es, t, key)[k]
  {
    var i :| 0 <= i < |es| && es[i].row.kind == t && key(es[i]) == k;
    assert k in AllKeys(es, key);
    assert t in KindsOf(es);
  }

  /** An entry whose type cell is a value rather than a missing one. */
  predicate Typed(e: Entry) {
    !IsNa(e.row.kind)
  }

  /** An entry whose category cell is a value rather than a missing one. */
  predicate Categorised(e: Entry) {
    !IsNa(e.row.category)
  }

  /** The pivot of the typed entries: its rows are exactly the groups of
      the typed entries, and every row has a column for each type that
      occurs as a value anywhere in the entries. */
  lemma PivotShape<K>(p: Parsers, es: seq<Entry>, key: Entry -> K, k: K, t: string)
    ensures var pv := Pivot(p, Keep(es, Typed), key);
      (k in pv <==> exists e :: e in es && Typed(e) && key(e) == k)
      && (k in pv ==> (t in pv[k] <==> !IsNa(t) && exists e :: e in es && e.row.kind == t))
  {
    var ts := Keep(es, Typed);
    if exists e :: e in es && Typed(e) && key(e) == k {
      var e :| e in es && Typed(e) && key(e) == k;
      assert e in ts;
      var i :| 0 <= i < |ts| && ts[i] == e;
      assert k in AllKeys(ts, key);
    }
    if k in AllKeys(ts, key) {
      var i :| 0 <= i < |ts| && key(ts[i]) == k;
      assert ts[i] in ts;
    }
    if !IsNa(t) && exists e :: e in es && e.row.kind == t {
      var e :| e in es && e.row.kind == t;
      assert e in ts;
      var i :| 0 <= i < |ts| && ts[i] == e;
      assert t in KindsOf(ts);
    }
    if t in KindsOf(ts) {
      var i :| 0 <= i < |ts| && ts[i].row.kind == t;
      assert ts[i] in ts;
    }
  }

  datatype AnalysisView = AnalysisView(categories: map<string, int>,
                                       monthly: map<(int, int), map<string, int>>,
                                       yearly: map<int, map<string, int>>)

  /** The analysis page of the loaded entries. The category chart groups
      the spends with a category value; the monthly and yearly pivots
      group the entries with a type value. */
  function Analysis(p: Parsers, rows: seq<Row>): AnalysisView {
    var es := Load(p, rows);
    if es == [] then AnalysisView(map[], map[], map[])
    else
      var typed := Keep(es, Typed);
      AnalysisView(Buckets(p, Keep(es, Categorised), Spend, CategoryOf),
                   Pivot(p, typed, MonthOf), Pivot(p, typed, YearOf))
  }

  /** The analysis page's special case for an empty file is what the
      general figures give. */
  lemma AnalysisIsPivots(p: Parsers, rows: seq<Row>)
    ensures var es := Load(p, rows);
      Analysis(p, rows) == AnalysisView(Buckets(p, Keep(es, Categorised), Spend, CategoryOf),
                                        Pivot(p, Keep(es, Typed), MonthOf), Pivot(p, Keep(es, Typed), YearOf))
  {
    var es := Load(p, rows);
    if es == [] {
      assert Keep(es, Categorised) == [] && Keep(es, Typed) == [];
      assert GroupKeys([], Spend, CategoryOf) == {};
      assert AllKeys([], MonthOf) == {};
      assert AllKeys([], YearOf) == {};
    }
  }

  /** The monthly and yearly pivots have a row for each month (year) with
      a typed entry and no other, and a column for each type value that
      occurs; a missing type is neither a row's entry nor a column. */
  lemma AnalysisPivotsShape(p: Parsers, rows: seq<Row>, m: (int, int), y: int, t: string)
    ensures var a, es := Analysis(p, rows), Load(p, rows);
      (m in a.monthly <==> exists e :: e in es && Typed(e) && MonthOf(e) == m)
      && (m in a.monthly ==> (t in a.monthly[m] <==> !IsNa(t) && exists e :: e in es && e.row.kind == t))
      && (y in a.yearly <==> exists e :: e in es && Typed(e) && YearOf(e) == y)
      && (y in a.yearly ==> (t in a.yearly[y] <==> !IsNa(t) && exists e :: e in es && e.row.kind == t))
  {
    AnalysisIsPivots(p, rows);
    PivotShape(p, Load(p, rows), MonthOf, m, t);
    PivotShape(p, Load(p, rows), YearOf, y, t);
  }

  /** The category chart holds only spends with a category value: each
      such category, with its spend total. Those totals add up to the
      total spend less the spends whose category is missing. */
  lemma CategoriesAreSpends(p: Parsers, rows: seq<Row>, cs: seq<string>)
    requires Distinct(cs)
    requires forall c :: c in cs <==> c in Analysis(p, rows).categories
    ensures var es := Load(p, rows);
      SumValues(Analysis(p, rows).categories, cs)
        == KindTotal(p, es, Spend) - KindTotal(p, Keep(es, (e: Entry) => !Categorised(e)), Spend)
    ensures forall c :: c in Analysis(p, rows).categories <==>
      !IsNa(c) && exists e :: e in Load(p, rows) && e.row.kind == Spend && e.row.category == c
  {
    var es := Load(p, rows);
    var cat := Keep(es, Categorised);
    AnalysisIsPivots(p, rows);
    BucketsPartitionTotal(p, cat, Spend, CategoryOf, cs);
    KindTotalSplit(p, es, Spend, Categorised, (e: Entry) => !Categorised(e));
    forall c ensures c in Analysis(p, rows).categories <==>
      !IsNa(c) && exists e :: e in es && e.row.kind == Spend && e.row.category == c
    {
      if !IsNa(c) && exists e :: e in es && e.row.kind == Spend && e.row.category == c {
        var e :| e in es && e.row.kind == Spend && e.row.category == c;
        assert e in cat;
        var i :| 0 <= i < |cat| && cat[i] == e;
        assert c in GroupKeys(cat, Spend, CategoryOf);
      }
      if c in Analysis(p, rows).categories {
        var i :| 0 <= i < |cat| && cat[i].row.kind == Spend && CategoryOf(cat[i]) == c;
        assert cat[i] in cat;
      }
    }
  }
}
