/** The analytics endpoint of the web application (`GET /api/analytics/segments`):
    per-platform user totals from a report, a histogram of three user
    properties, the ten most frequent recent events, and three fixed
    segments that all carry these figures. Report rows, user documents and
    event names arrive as inputs; wall-clock timestamps are opaque strings. */
module SegmentsRoute {
  import opened Common
  import opened Sorting

  // ---------------------------------------------------------------------------
  // Report rows and device statistics

  /** A metric cell: a number, or anything `Number(...)` turns into NaN
      (including a missing cell). */
  datatype MetricValue = Numeric(n: int) | NonNumeric

  /** `Number(value) || 0`. */
  function Users(m: MetricValue): int {
    match m
    case Numeric(n) => n
    case NonNumeric => 0
  }

  /** One report row: the first dimension (platform) and the three metrics
      in the order requested. */
  datatype ReportRow = ReportRow(
    platform: Option<string>,
    totalUsers: MetricValue,
    activeUsers: MetricValue,
    newUsers: MetricValue)

  /** `response.rows`, absent or present. */
  function RowsOf(rows: Option<seq<ReportRow>>): seq<ReportRow> {
    rows.GetOr([])
  }

  /** The row's platform lower-cases to `p`. */
  predicate IsOn(p: string, row: ReportRow) {
    row.platform.Some? && ToLower(row.platform.value) == p
  }

  function RowUsers(row: ReportRow): int {
    Users(row.totalUsers)
  }

  function IosUsers(row: ReportRow): int {
    if IsOn("ios", row) then RowUsers(row) else 0
  }

  /** A row counts for Android only when it does not count for iOS. */
  function AndroidUsers(row: ReportRow): int {
    if IsOn("ios", row) then 0
    else if IsOn("android", row) then RowUsers(row) else 0
  }

  datatype DeviceStats = DeviceStats(ios: int, android: int)

  /** The `deviceStats` loop: each row adds its users to the counter its
      platform names. */
  method AccumulateDeviceStats(rows: Option<seq<ReportRow>>) returns (stats: DeviceStats)
    ensures stats.ios == SumBy(RowsOf(rows), IosUsers)
    ensures stats.android == SumBy(RowsOf(rows), AndroidUsers)
  {
    var ios, android := 0, 0;
    var rs := RowsOf(rows);
    var i := 0;
    while i < |rs|
      invariant 0 <= i <= |rs|
      invariant ios == SumBy(rs[..i], IosUsers)
      invariant android == SumBy(rs[..i], AndroidUsers)
    {
      var row := rs[i];
      var platform := if row.platform.Some? then Some(ToLower(row.platform.value)) else None;
      var users := Users(row.totalUsers);
      assert rs[..i + 1] == rs[..i] + [row];
      SumByAppend(rs[..i], [row], IosUsers);
      SumByAppend(rs[..i], [row], AndroidUsers);
      if platform == Some("ios") {
        ios := ios + users;
      } else if platform == Some("android") {
        android := android + users;
      }
      i := i + 1;
    }
    assert rs[..i] == rs;
    stats := DeviceStats(ios, android);
  }

  /** The iOS total is the sum of users over exactly the rows whose platform
      lower-cases to `ios`, and likewise for Android; rows of any other
      platform contribute nothing. */
  lemma DeviceStatsAreFilteredSums(rows: seq<ReportRow>)
    ensures SumBy(rows, IosUsers) == SumBy(Filter(rows, r => IsOn("ios", r)), RowUsers)
    ensures SumBy(rows, AndroidUsers) == SumBy(Filter(rows, r => IsOn("android", r)), RowUsers)
  {
    SumByMasked(rows, r => IsOn("ios", r), RowUsers, IosUsers);
    SumByMasked(rows, r => IsOn("android", r), RowUsers, AndroidUsers);
  }

  /** A row of another platform, or with a value that is not a number, leaves
      both totals as they were. */
  lemma OtherRowsCountNothing(rows: seq<ReportRow>, row: ReportRow)
    requires (!IsOn("ios", row) && !IsOn("android", row)) || row.totalUsers.NonNumeric?
    ensures SumBy(rows + [row], IosUsers) == SumBy(rows, IosUsers)
    ensures SumBy(rows + [row], AndroidUsers) == SumBy(rows, AndroidUsers)
  {
    SumByAppend(rows, [row], IosUsers);
    SumByAppend(rows, [row], AndroidUsers);
  }

  // ---------------------------------------------------------------------------
  // User property histogram

  /** The data of a user document; a property is truthy when present and not
      empty. */
  type UserDoc = map<string, string>

  const PropNames: seq<string> := ["language", "country", "appVersion"]

  predicate HasProp(doc: UserDoc, prop: string) {
    prop in doc && doc[prop] != ""
  }

  /** The truthy values of `prop`, in document order. */
  function PropValues(docs: seq<UserDoc>, prop: string): (r: seq<string>)
    ensures |r| <= |docs|
    ensures forall i :: 0 <= i < |r| ==> r[i] != ""
    ensures forall v :: v in r <==> exists d :: d in docs && HasProp(d, prop) && d[prop] == v
  {
    if docs == [] then []
    else
      var last := docs[|docs| - 1];
      assert forall d :: d in docs <==> d in docs[..|docs| - 1] || d == last;
      PropValues(docs[..|docs| - 1], prop) + (if HasProp(last, prop) then [last[prop]] else [])
  }

  /** One value found in the documents and how many documents carry it. */
  datatype Bucket = Bucket(value: string, count: nat)

  function BucketCount(b: Bucket): int {
    b.count
  }

  function Values(buckets: seq<Bucket>): (r: seq<string>)
    ensures |r| == |buckets|
    ensures forall i :: 0 <= i < |r| ==> r[i] == buckets[i].value
  {
    seq(|buckets|, i requires 0 <= i < |buckets| => buckets[i].value)
  }

  /** The position `find` stops at: the first bucket holding `v`, or the
      length of the list when there is none. */
  function FirstIndex(buckets: seq<Bucket>, v: string): (i: nat)
    ensures i <= |buckets|
    ensures forall k :: 0 <= k < i ==> buckets[k].value != v
    ensures i < |buckets| ==> buckets[i].value == v
  {
    if buckets == [] then 0
    else if buckets[0].value == v then 0
    else 1 + FirstIndex(buckets[1..], v)
  }

  /** Counting one more occurrence of `v`: the bucket `find` returns gains
      one, or a new bucket of one is pushed at the end. */
  function Tallied(buckets: seq<Bucket>, v: string): seq<Bucket> {
    var i := FirstIndex(buckets, v);
    if i < |buckets| then buckets[i := Bucket(v, buckets[i].count + 1)]
    else buckets + [Bucket(v, 1)]
  }

  /** The list `userProperties[prop]` becomes after the values `vals`. */
  function Histogram(vals: seq<string>): seq<Bucket> {
    if vals == [] then []
    else Tallied(Histogram(vals[..|vals| - 1]), vals[|vals| - 1])
  }

  lemma HistogramSnoc(vals: seq<string>, v: string)
    ensures Histogram(vals + [v]) == Tallied(Histogram(vals), v)
  {
    assert (vals + [v])[..|vals|] == vals;
  }

  /** `find` then `count++` or `push`. */
  method Tally(buckets: seq<Bucket>, v: string) returns (r: seq<Bucket>)
    ensures r == Tallied(buckets, v)
  {
    var i := 0;
    while i < |buckets| && buckets[i].value != v
      invariant 0 <= i <= |buckets|
      invariant forall k :: 0 <= k < i ==> buckets[k].value != v
    {
      i := i + 1;
    }
    if i < |buckets| {
      r := buckets[i := Bucket(v, buckets[i].count + 1)];
    } else {
      r := buckets + [Bucket(v, 1)];
    }
  }

  /** The histogram of each of the three properties over `docs`. */
  function UserProperties(docs: seq<UserDoc>): map<string, seq<Bucket>> {
    map p | p in PropNames :: Histogram(PropValues(docs, p))
  }

  const PropKeys: set<string> := {"language", "country", "appVersion"}

  /** One document's effect on the list of one property. */
  function TallyDoc(buckets: seq<Bucket>, doc: UserDoc, prop: string): seq<Bucket> {
    if HasProp(doc, prop) then Tallied(buckets, doc[prop]) else buckets
  }

  /** The inner loop: each of the three properties of one document. */
  method AddDoc(props: map<string, seq<Bucket>>, doc: UserDoc) returns (r: map<string, seq<Bucket>>)
    requires props.Keys == PropKeys
    ensures r.Keys == PropKeys
    ensures forall p :: p in r ==> r[p] == TallyDoc(props[p], doc, p)
  {
    r := props;
    var k := 0;
    while k < |PropNames|
      invariant 0 <= k <= |PropNames|
      invariant r.Keys == PropKeys
      invariant forall j :: 0 <= j < k ==> r[PropNames[j]] == TallyDoc(props[PropNames[j]], doc, PropNames[j])
      invariant forall j :: k <= j < |PropNames| ==> r[PropNames[j]] == props[PropNames[j]]
    {
      var prop := PropNames[k];
      if HasProp(doc, prop) {
        var updated := Tally(r[prop], doc[prop]);
        r := r[prop := updated];
      }
      k := k + 1;
    }
    assert forall p :: p in PropKeys ==> p == PropNames[0] || p == PropNames[1] || p == PropNames[2];
  }

  lemma TallyDocStep(docs: seq<UserDoc>, i: nat, prop: string)
    requires i < |docs|
    ensures TallyDoc(Histogram(PropValues(docs[..i], prop)), docs[i], prop)
         == Histogram(PropValues(docs[..i + 1], prop))
  {
    assert docs[..i + 1][..i] == docs[..i];
    assert PropValues(docs[..i + 1], prop)
        == PropValues(docs[..i], prop) + (if HasProp(docs[i], prop) then [docs[i][prop]] else []);
    if HasProp(docs[i], prop) {
      HistogramSnoc(PropValues(docs[..i], prop), docs[i][prop]);
    } else {
      assert PropValues(docs[..i], prop) + [] == PropValues(docs[..i], prop);
    }
  }

  /** The `userProperties` loops: over the documents, and within each over
      the three properties, tallying every truthy value. */
  method BuildUserProperties(docs: seq<UserDoc>) returns (props: map<string, seq<Bucket>>)
    ensures props == UserProperties(docs)
  {
    props := map["language" := [], "country" := [], "appVersion" := []];
    var i := 0;
    while i < |docs|
      invariant 0 <= i <= |docs|
      invariant props.Keys == PropKeys
      invariant forall p :: p in props ==> props[p] == Histogram(PropValues(docs[..i], p))
    {
      var before := props;
      props := AddDoc(props, docs[i]);
      forall p | p in props
        ensures props[p] == Histogram(PropValues(docs[..i + 1], p))
      {
        TallyDocStep(docs, i, p);
      }
      i := i + 1;
    }
    assert docs[..i] == docs;
  }

  lemma {:induction false} TalliedValues(buckets: seq<Bucket>, v: string)
    ensures Values(Tallied(buckets, v)) == if v in Values(buckets) then Values(buckets) else Values(buckets) + [v]
  {
    var i := FirstIndex(buckets, v);
    if i < |buckets| {
      assert Values(buckets)[i] == v;
    } else {
      assert v !in Values(buckets);
    }
  }

  /** The values of a histogram are the distinct values counted, each once,
      in order of first occurrence: a value seen for the first time is
      appended at the end. */
  lemma {:induction false} HistogramValues(vals: seq<string>)
    ensures Values(Histogram(vals)) == Distinct(vals)
  {
    if vals != [] {
      var prefix := vals[..|vals| - 1];
      HistogramValues(prefix);
      TalliedValues(Histogram(prefix), vals[|vals| - 1]);
    }
  }

  /** No two buckets of a histogram hold the same value. */
  lemma HistogramDistinct(vals: seq<string>)
    ensures var h := Histogram(vals);
            forall i, j :: 0 <= i < j < |h| ==> h[i].value != h[j].value
  {
    HistogramValues(vals);
  }

  /** A value not seen before adds a bucket of one at the end and leaves the
      rest as it was; a value seen before adds no bucket. */
  lemma HistogramAppendsNew(vals: seq<string>, v: string)
    ensures v !in vals ==> Histogram(vals + [v]) == Histogram(vals) + [Bucket(v, 1)]
    ensures v in vals ==> |Histogram(vals + [v])| == |Histogram(vals)|
  {
    HistogramSnoc(vals, v);
    HistogramValues(vals);
    var h := Histogram(vals);
    if v !in vals {
      assert v !in Values(h);
      assert FirstIndex(h, v) == |h|;
    } else {
      assert v in Values(h);
    }
  }

  /** Every bucket counts exactly the occurrences of its value. */
  lemma {:induction false} HistogramCounts(vals: seq<string>)
    ensures var h := Histogram(vals);
            forall i :: 0 <= i < |h| ==> h[i].count == Count(vals, h[i].value)
  {
    if vals != [] {
      var prefix := vals[..|vals| - 1];
      var v := vals[|vals| - 1];
      assert vals == prefix + [v];
      HistogramCounts(prefix);
      HistogramValues(prefix);
      var h := Histogram(prefix);
      var h' := Histogram(vals);
      forall i | 0 <= i < |h'|
        ensures h'[i].count == Count(vals, h'[i].value)
      {
        CountAppend(prefix, v, h'[i].value);
        var j := FirstIndex(h, v);
        if j == |h| && i == |h| {
          assert v !in Values(h);
        }
      }
    }
  }

  /** The counts of a histogram add up to the number of values counted. */
  lemma {:induction false} HistogramTotal(vals: seq<string>)
    ensures SumBy(Histogram(vals), BucketCount) == |vals|
  {
    if vals != [] {
      var prefix := vals[..|vals| - 1];
      var v := vals[|vals| - 1];
      HistogramTotal(prefix);
      var h := Histogram(prefix);
      var i := FirstIndex(h, v);
      if i < |h| {
        SumByUpdate(h, i, Bucket(v, h[i].count + 1), BucketCount);
      } else {
        SumByAppend(h, [Bucket(v, 1)], BucketCount);
      }
    }
  }

  function Truthy01(doc: UserDoc, prop: string): int {
    if HasProp(doc, prop) then 1 else 0
  }

  lemma {:induction false} PropValuesCount(docs: seq<UserDoc>, prop: string)
    ensures |PropValues(docs, prop)| == SumBy(docs, d => Truthy01(d, prop))
  {
    if docs != [] {
      var prefix := docs[..|docs| - 1];
      PropValuesCount(prefix, prop);
      assert docs == prefix + [docs[|docs| - 1]];
      SumByAppend(prefix, [docs[|docs| - 1]], d => Truthy01(d, prop));
    }
  }

  /** For each property, the counts add up to the number of documents in
      which that property is truthy. */
  lemma PropertyCountsMatchDocs(docs: seq<UserDoc>, prop: string)
    requires prop in PropNames
    ensures prop in UserProperties(docs)
    ensures SumBy(UserProperties(docs)[prop], BucketCount) == SumBy(docs, d => Truthy01(d, prop))
  {
    HistogramTotal(PropValues(docs, prop));
    PropValuesCount(docs, prop);
  }

  // ---------------------------------------------------------------------------
  // Event counts and the ten most frequent events

  /** One more occurrence of `name`: its count gains one, or it enters with 1. */
  function Counted(counts: map<string, nat>, name: string): map<string, nat> {
    if name in counts then counts[name := counts[name] + 1] else counts[name := 1]
  }

  /** `counts` holds exactly the names of `s`, each with its number of occurrences. */
  ghost predicate Tallies(counts: map<string, nat>, s: seq<string>) {
    && (forall n :: n in counts <==> n in s)
    && (forall n :: n in counts ==> counts[n] == Count(s, n))
  }

  lemma CountedStep(prefix: seq<string>, name: string, counts: map<string, nat>)
    requires Tallies(counts, prefix)
    ensures name in counts <==> name in prefix
    ensures Tallies(Counted(counts, name), prefix + [name])
  {
    forall n
      ensures Count(prefix + [name], n) == Count(prefix, n) + (if name == n then 1 else 0)
    {
      CountAppend(prefix, name, n);
    }
  }

  lemma DistinctStep(prefix: seq<string>, name: string)
    ensures Distinct(prefix + [name])
         == if name in prefix then Distinct(prefix) else Distinct(prefix) + [name]
  {
    assert (prefix + [name])[..|prefix|] == prefix;
  }

  /** The `eventCounts` loop. `order` is the order in which the names first
      appear, the order `Object.entries` lists the keys in. */
  method CountEvents(names: seq<string>) returns (counts: map<string, nat>, order: seq<string>)
    ensures forall n :: n in counts <==> n in names
    ensures forall n :: n in counts ==> counts[n] == Count(names, n)
    ensures order == Distinct(names)
  {
    counts := map[];
    order := [];
    var i := 0;
    while i < |names|
      invariant 0 <= i <= |names|
      invariant Tallies(counts, names[..i])
      invariant order == Distinct(names[..i])
    {
      var name := names[i];
      assert names[..i + 1] == names[..i] + [name];
      CountedStep(names[..i], name, counts);
      DistinctStep(names[..i], name);
      if name !in counts {
        order := order + [name];
      }
      counts := Counted(counts, name);
      i := i + 1;
    }
    assert names[..i] == names;
  }

  datatype EventCount = EventCount(name: string, count: int, date: string)

  /** `Object.entries(eventCounts)` mapped to entries dated `now`. */
  function EventEntries(names: seq<string>, now: string): (r: seq<EventCount>)
    ensures |r| == |Distinct(names)|
    ensures forall i :: 0 <= i < |r| ==> r[i] == EventCount(Distinct(names)[i], Count(names, Distinct(names)[i]), now)
  {
    var keys := Distinct(names);
    seq(|keys|, i requires 0 <= i < |keys| => EventCount(keys[i], Count(names, keys[i]), now))
  }

  /** The comparator `b.count - a.count`: larger counts first. */
  predicate CountGe(a: EventCount, b: EventCount) {
    a.count >= b.count
  }

  lemma CountOrderIsTotalPreorder()
    ensures TotalPreorder(CountGe)
  {
  }

  /** The first ten of a sorted permutation are a top ten. */
  lemma TopOfSorted(entries: seq<EventCount>, sorted: seq<EventCount>)
    requires multiset(sorted) == multiset(entries)
    requires SortedBy(sorted, CountGe)
    ensures var r := Take(sorted, 10);
            && |r| == (if |entries| < 10 then |entries| else 10)
            && (forall e :: e in r ==> e in entries)
            && SortedBy(r, CountGe)
            && (forall e :: e in entries && e !in r ==> forall i :: 0 <= i < |r| ==> r[i].count >= e.count)
            && (NoDuplicates(entries) ==> NoDuplicates(r))
  {
    var r := Take(sorted, 10);
    assert |multiset(sorted)| == |multiset(entries)|;
    NoDuplicatesPermutation(sorted, entries);
    forall e | e in r
      ensures e in entries
    {
      assert e in multiset(sorted);
    }
    TopOfSortedLeavesOutNoLarger(entries, sorted);
  }

  lemma TopOfSortedLeavesOutNoLarger(entries: seq<EventCount>, sorted: seq<EventCount>)
    requires multiset(sorted) == multiset(entries)
    requires SortedBy(sorted, CountGe)
    ensures var r := Take(sorted, 10);
            forall e :: e in entries && e !in r ==> forall i :: 0 <= i < |r| ==> r[i].count >= e.count
  {
    var r := Take(sorted, 10);
    forall e | e in entries && e !in r
      ensures forall i :: 0 <= i < |r| ==> r[i].count >= e.count
    {
      assert e in multiset(sorted);
      var j :| 0 <= j < |sorted| && sorted[j] == e;
      assert j >= |r|;
      forall i | 0 <= i < |r|
        ensures r[i].count >= e.count
      {
        assert CountGe(sorted[i], sorted[j]);
      }
    }
  }

  /** `.sort((a, b) => b.count - a.count).slice(0, 10)`. */
  function TopTen(entries: seq<EventCount>): (r: seq<EventCount>)
    ensures |r| <= 10
    ensures |r| == if |entries| < 10 then |entries| else 10
    ensures forall e :: e in r ==> e in entries
    ensures SortedBy(r, CountGe)
    ensures forall e :: e in entries && e !in r ==> forall i :: 0 <= i < |r| ==> r[i].count >= e.count
    ensures NoDuplicates(entries) ==> NoDuplicates(r)
  {
    CountOrderIsTotalPreorder();
    var sorted := SortBy(entries, CountGe);
    TopOfSorted(entries, sorted);
    Take(sorted, 10)
  }

  /** `recentEvents` for the event names `names`. */
  function RecentEvents(names: seq<string>, now: string): seq<EventCount> {
    TopTen(EventEntries(names, now))
  }

  /** At most ten events, each named once, by count from the largest, each
      with its true count; no event left out occurs more often than one
      listed. */
  lemma RecentEventsAreTopTen(names: seq<string>, now: string)
    ensures var r := RecentEvents(names, now);
            && |r| <= 10
            && (forall i, j :: 0 <= i < j < |r| ==> r[i].count >= r[j].count && r[i].name != r[j].name)
            && (forall i :: 0 <= i < |r| ==> r[i].name in names && r[i].count == Count(names, r[i].name))
            && (forall n :: n in names && (forall i :: 0 <= i < |r| ==> r[i].name != n) ==>
                  forall i :: 0 <= i < |r| ==> r[i].count >= Count(names, n))
  {
    var r := RecentEvents(names, now);
    assert SortedBy(r, CountGe);
    RecentEventsNamedOnce(names, now);
    RecentEventsCounted(names, now);
    RecentEventsLeaveOutNoLarger(names, now);
  }

  lemma RecentEventsNamedOnce(names: seq<string>, now: string)
    ensures var r := RecentEvents(names, now);
            forall i, j :: 0 <= i < j < |r| ==> r[i].name != r[j].name
  {
    var entries := EventEntries(names, now);
    var r := RecentEvents(names, now);
    EventEntriesFacts(names, now);
    forall i, j | 0 <= i < j < |r|
      ensures r[i].name != r[j].name
    {
      assert r[i] in entries && r[j] in entries;
    }
  }

  lemma RecentEventsCounted(names: seq<string>, now: string)
    ensures var r := RecentEvents(names, now);
            forall i :: 0 <= i < |r| ==> r[i].name in names && r[i].count == Count(names, r[i].name)
  {
    var entries := EventEntries(names, now);
    var r := RecentEvents(names, now);
    EventEntriesFacts(names, now);
    forall i | 0 <= i < |r|
      ensures r[i].name in names && r[i].count == Count(names, r[i].name)
    {
      assert r[i] in entries;
    }
  }

  lemma RecentEventsLeaveOutNoLarger(names: seq<string>, now: string)
    ensures var r := RecentEvents(names, now);
            forall n :: n in names && (forall i :: 0 <= i < |r| ==> r[i].name != n) ==>
              forall i :: 0 <= i < |r| ==> r[i].count >= Count(names, n)
  {
    var entries := EventEntries(names, now);
    var r := RecentEvents(names, now);
    EventEntriesFacts(names, now);
    forall n | n in names && (forall i :: 0 <= i < |r| ==> r[i].name != n)
      ensures forall i :: 0 <= i < |r| ==> r[i].count >= Count(names, n)
    {
      var e := EventCount(n, Count(names, n), now);
      assert e in entries;
      assert e !in r;
    }
  }

  /** Each distinct name has one entry, carrying its true count. */
  lemma EventEntriesFacts(names: seq<string>, now: string)
    ensures var entries := EventEntries(names, now);
            && NoDuplicates(entries)
            && (forall a, b :: a in entries && b in entries && a.name == b.name ==> a == b)
            && (forall e :: e in entries ==> e.name in names && e.count == Count(names, e.name))
            && (forall n :: n in names ==> EventCount(n, Count(names, n), now) in entries)
  {
    var entries := EventEntries(names, now);
    var keys := Distinct(names);
    forall n | n in names
      ensures EventCount(n, Count(names, n), now) in entries
    {
      var k :| 0 <= k < |keys| && keys[k] == n;
      assert entries[k] == EventCount(n, Count(names, n), now);
    }
    forall a, b | a in entries && b in entries && a.name == b.name
      ensures a == b
    {
      var i :| 0 <= i < |entries| && entries[i] == a;
      var j :| 0 <= j < |entries| && entries[j] == b;
      assert keys[i] == keys[j];
    }
  }

  // ---------------------------------------------------------------------------
  // Segments and the user count

  datatype SegmentFilter = SegmentFilter(field: string, operator: string, value: string)

  /** The three built-in segments. `weekAgo` and `monthAgo` are the
      timestamps seven and thirty days before the request. */
  datatype SegmentDef = SegmentDef(id: string, name: string, filters: seq<SegmentFilter>)

  function SegmentDefs(weekAgo: string, monthAgo: string): seq<SegmentDef> {
    [ SegmentDef("all_users", "전체 사용자", []),
      SegmentDef("active_users", "활성 사용자 (최근 7일)",
                 [SegmentFilter("lastActivityDate", "GREATER_THAN", weekAgo)]),
      SegmentDef("new_users", "신규 사용자 (최근 30일)",
                 [SegmentFilter("firstOpenDate", "GREATER_THAN", monthAgo)]) ]
  }

  /** The metric a segment reads: total users for `all_users`, active users
      for `active_users`, new users otherwise. */
  function MetricFor(row: ReportRow, id: string): MetricValue {
    if id == "all_users" then row.totalUsers
    else if id == "active_users" then row.activeUsers
    else row.newUsers
  }

  /** `Number(response.rows?.[0].metricValues?.[k].value) || 0` as written:
      `None` when evaluating it throws. An absent `rows` short-circuits to 0;
      an empty `rows` makes `[0]` undefined, and reading `metricValues` of
      undefined throws. */
  function UserCountAsWritten(rows: Option<seq<ReportRow>>, id: string): Option<int> {
    if rows.None? then Some(0)
    else if rows.value == [] then None
    else Some(Users(MetricFor(rows.value[0], id)))
  }

  /** An empty report makes the expression throw, so the whole request fails
      with 500, where an absent report yields 0. */
  lemma EmptyReportThrows()
    ensures UserCountAsWritten(Some([]), "all_users").None?
    ensures UserCountAsWritten(None, "all_users") == Some(0)
  {
  }

  /** The user count with an empty report read as no users. */
  function UserCount(rows: Option<seq<ReportRow>>, id: string): int {
    if rows.None? || rows.value == [] then 0
    else Users(MetricFor(rows.value[0], id))
  }

  /** The corrected count never fails, is 0 for an absent or empty report,
      and agrees with the written expression wherever that does not throw,
      which is everywhere except the empty report. */
  lemma UserCountCorrected(rows: Option<seq<ReportRow>>, id: string)
    ensures RowsOf(rows) == [] ==> UserCount(rows, id) == 0
    ensures UserCountAsWritten(rows, id).None? <==> rows == Some([])
    ensures UserCountAsWritten(rows, id).Some? ==> UserCountAsWritten(rows, id).value == UserCount(rows, id)
  {
  }

  datatype UserSegment = UserSegment(
    id: string,
    name: string,
    filters: seq<SegmentFilter>,
    userCount: int,
    lastUpdated: string,
    deviceStats: DeviceStats,
    userProperties: map<string, seq<Bucket>>,
    recentEvents: seq<EventCount>)

  /** The request's timestamps: now, seven and thirty days ago. */
  datatype Clock = Clock(now: string, weekAgo: string, monthAgo: string)

  function Segments(rows: Option<seq<ReportRow>>, stats: DeviceStats,
                    props: map<string, seq<Bucket>>, recent: seq<EventCount>, clock: Clock)
    : (r: seq<UserSegment>)
    ensures |r| == |SegmentDefs(clock.weekAgo, clock.monthAgo)|
  {
    var defs := SegmentDefs(clock.weekAgo, clock.monthAgo);
    seq(|defs|, i requires 0 <= i < |defs| =>
      UserSegment(defs[i].id, defs[i].name, defs[i].filters, UserCount(rows, defs[i].id),
                  clock.now, stats, props, recent))
  }

  /** What the endpoint answers with for a report, the user documents and
      the names of the recent events. */
  function SegmentsOf(rows: Option<seq<ReportRow>>, docs: seq<UserDoc>, names: seq<string>, clock: Clock)
    : seq<UserSegment>
  {
    Segments(rows,
             DeviceStats(SumBy(RowsOf(rows), IosUsers), SumBy(RowsOf(rows), AndroidUsers)),
             UserProperties(docs), RecentEvents(names, clock.now), clock)
  }

  /** Exactly three segments in the built-in order, each reading its own
      metric of the first row, all sharing the same figures. */
  lemma ThreeSegments(rows: Option<seq<ReportRow>>, docs: seq<UserDoc>, names: seq<string>, clock: Clock)
    ensures var s := SegmentsOf(rows, docs, names, clock);
            && |s| == 3
            && s[0].id == "all_users" && s[1].id == "active_users" && s[2].id == "new_users"
            && (RowsOf(rows) != [] ==>
                  && s[0].userCount == Users(rows.value[0].totalUsers)
                  && s[1].userCount == Users(rows.value[0].activeUsers)
                  && s[2].userCount == Users(rows.value[0].newUsers))
            && (RowsOf(rows) == [] ==> s[0].userCount == s[1].userCount == s[2].userCount == 0)
            && (forall i :: 0 <= i < 3 ==>
                  && s[i].deviceStats.ios == SumBy(Filter(RowsOf(rows), r => IsOn("ios", r)), RowUsers)
                  && s[i].deviceStats.android == SumBy(Filter(RowsOf(rows), r => IsOn("android", r)), RowUsers)
                  && s[i].userProperties == UserProperties(docs)
                  && s[i].recentEvents == RecentEvents(names, clock.now))
  {
    DeviceStatsAreFilteredSums(RowsOf(rows));
  }

  // ---------------------------------------------------------------------------
  // The handler

  /** The report call: rows (possibly absent), or a thrown error. */
  datatype Report = Report(rows: Option<seq<ReportRow>>) | ReportFailed

  datatype SegmentsResponse =
    | SegmentsListed(segments: seq<UserSegment>)
    | SegmentsFailed(status: int, error: string)

  const ErrUnauthorized: string := "Unauthorized"
  const ErrInternal: string := "Internal Server Error"

  /** `GET`. `signedIn` is whether a session exists; `users` and `events` are
      what the two store queries returned, `None` when one threw. */
  method Get(signedIn: bool, propertyId: Option<string>, report: Report,
             users: Option<seq<UserDoc>>, events: Option<seq<string>>, clock: Clock)
    returns (r: SegmentsResponse)
    ensures !signedIn ==> r == SegmentsFailed(401, ErrUnauthorized)
    ensures signedIn && (!Truthy(propertyId) || report.ReportFailed? || users.None? || events.None?) ==>
              r == SegmentsFailed(500, ErrInternal)
    ensures signedIn && Truthy(propertyId) && report.Report? && users.Some? && events.Some? ==>
              r == SegmentsListed(SegmentsOf(report.rows, users.value, events.value, clock))
  {
    if !signedIn {
      return SegmentsFailed(401, ErrUnauthorized);
    }
    if !Truthy(propertyId) || report.ReportFailed? || users.None? || events.None? {
      return SegmentsFailed(500, ErrInternal);
    }
    var stats := AccumulateDeviceStats(report.rows);
    var props := BuildUserProperties(users.value);
    var counts, order := CountEvents(events.value);
    var entries := seq(|order|, i requires 0 <= i < |order| => EventCount(order[i], counts[order[i]], clock.now));
    assert entries == EventEntries(events.value, clock.now);
    var recent := TopTen(entries);
    r := SegmentsListed(Segments(report.rows, stats, props, recent, clock));
  }
}
