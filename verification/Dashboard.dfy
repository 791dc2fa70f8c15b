/** The dashboard's one-pass aggregation over the request log (internal/store/records.go,
    internal/core/dashboard_service.go). Times are nanoseconds. */
module Dashboard {
  import opened Arithmetic
  import opened Percentile
  import opened Text
  import opened Wrappers

  /** The numbers a usage map may carry; None: absent, negative, or not a number. */
  datatype Usage = Usage(
    input: Option<nat>, inputTokens: Option<nat>,
    cachedInput: Option<nat>, cachedTokens: Option<nat>, detailsCached: Option<nat>,
    output: Option<nat>, outputTokens: Option<nat>)

  datatype Row = Row(
    createdAt: int,
    accountID: Option<int>,
    outcome: string,
    usage: Usage,
    ttft: Option<int>,
    latency: int,
    model: Option<string>,
    sse: bool)

  datatype Tokens = Tokens(cached: nat, nonCached: nat, output: nat)

  function FirstOf(a: Option<nat>, b: Option<nat>): nat {
    if a.Some? then a.value else if b.Some? then b.value else 0
  }

  /** dashboardTokens */
  function TokensOf(u: Usage): (t: Tokens)
    ensures t.cached + t.nonCached ==
            (var input := FirstOf(u.input, u.inputTokens); if t.cached > input then t.cached else input)
  {
    var input := FirstOf(u.input, u.inputTokens);
    var direct := FirstOf(u.cachedInput, u.cachedTokens);
    var cached := if direct == 0 then FirstOf(u.detailsCached, None) else direct;
    Tokens(cached, if input < cached then 0 else input - cached, FirstOf(u.output, u.outputTokens))
  }

  predicate IsError(outcome: string) { outcome != "success" && outcome != "no_extractable_text" }

  // ---------------------------------------------------------------- window and buckets

  const MINUTE := 60_000_000_000
  const HOUR := 60 * MINUTE
  const DAY := 24 * HOUR

  datatype Window = Window(start: int, end: int, bucket: int)

  /** DashboardWindow: None for a range that is not one of the four. An empty range means 7d. */
  function WindowOf(range: string, now: int): Option<Window> {
    if range == "1h" then Some(Window(now - HOUR, now, MINUTE))
    else if range == "1d" then Some(Window(now - DAY, now, HOUR))
    else if range == "7d" || range == "" then Some(Window(now - 7 * DAY, now, 6 * HOUR))
    else if range == "30d" then Some(Window(now - 30 * DAY, now, DAY))
    else None
  }

  function BucketCount(w: Window): int {
    if w.bucket <= 0 || w.end <= w.start then 1
    else
      var count := (w.end - w.start) / w.bucket;
      var full := if w.start + count * w.bucket < w.end then count + 1 else count;
      if full < 1 then 1 else full
  }

  function BucketIndex(t: int, w: Window, count: int): int {
    if t < w.start || t > w.end || w.bucket <= 0 || count <= 0 then -1
    else if t == w.end then count - 1
    else
      var idx := (t - w.start) / w.bucket;
      if idx >= count then count - 1 else idx
  }

  predicate WindowOk(w: Window) { w.bucket > 0 && w.start < w.end }

  predicate InWindow(t: int, w: Window) { w.start <= t <= w.end }

  /** The buckets cover the window and the last one is not empty. */
  lemma BucketsCover(w: Window)
    requires WindowOk(w)
    ensures var n := BucketCount(w); n >= 1 && w.start + (n - 1) * w.bucket < w.end <= w.start + n * w.bucket
  {
    var span := w.end - w.start;
    var q := span / w.bucket;
    assert span == w.bucket * q + span % w.bucket;
    Distribute(q, w.bucket);
    if q == 0 { assert q * w.bucket == 0; }
  }

  lemma Distribute(q: int, b: int)
    ensures (q + 1) * b == q * b + b && (q - 1) * b == q * b - b && b * q == q * b
  {
  }

  /** A time in the window lies in the interval of exactly one bucket, the end point in the last; the
      clamp of the index to the last bucket never changes anything. */
  lemma IndexIsExact(t: int, w: Window, i: int)
    requires WindowOk(w) && InWindow(t, w)
    ensures var n := BucketCount(w);
            && 0 <= BucketIndex(t, w, n) < n
            && (BucketIndex(t, w, n) == i <==>
                  0 <= i < n && w.start + i * w.bucket <= t && (t < w.start + (i + 1) * w.bucket || (t == w.end && i == n - 1)))
            && (t < w.end ==> (t - w.start) / w.bucket < n)
  {
    var n := BucketCount(w);
    BucketsCover(w);
    var d := t - w.start;
    var q := d / w.bucket;
    assert d == w.bucket * q + d % w.bucket;
    Distribute(q, w.bucket);
    Distribute(n, w.bucket);
    Distribute(i, w.bucket);
    MulOrder(w.bucket, q, n);
    MulOrder(w.bucket, i, n);
    MulOrder(w.bucket, n - 1, i);
    MulOrder(w.bucket, q, i);
    MulOrder(w.bucket, i, q);
    MulOrder(w.bucket, i, q + 1);
    MulOrder(w.bucket, q, i + 1);
    assert w.bucket * (i + 1) == (i + 1) * w.bucket && w.bucket * (n - 1) == (n - 1) * w.bucket
           && w.bucket * (q + 1) == (q + 1) * w.bucket;
  }

  /** Every accepted range yields whole buckets: 60 minutes, 24 hours, 28 quarter days, 30 days. */
  lemma RangesAreWhole(range: string, now: int)
    requires WindowOf(range, now).Some?
    ensures var w := WindowOf(range, now).value;
            && WindowOk(w) && w.start + BucketCount(w) * w.bucket == w.end
            && (BucketCount(w) == 60 || BucketCount(w) == 24 || BucketCount(w) == 28 || BucketCount(w) == 30)
  {
  }

  // ---------------------------------------------------------------- filter and sum

  /** What one row, or one bucket, contributes to the four cards. */
  datatype Counts = Counts(requests: nat, cached: nat, nonCached: nat, output: nat, errors: nat, samples: nat)

  const ZERO := Counts(0, 0, 0, 0, 0, 0)

  function Add(a: Counts, b: Counts): Counts {
    Counts(a.requests + b.requests, a.cached + b.cached, a.nonCached + b.nonCached, a.output + b.output,
           a.errors + b.errors, a.samples + b.samples)
  }

  predicate Sampled(r: Row) { r.ttft.Some? && r.ttft.value >= 0 }

  function One(r: Row): Counts {
    var t := TokensOf(r.usage);
    Counts(1, t.cached, t.nonCached, t.output, if IsError(r.outcome) then 1 else 0, if Sampled(r) then 1 else 0)
  }

  function Sum(rows: seq<Row>): Counts {
    if rows == [] then ZERO else Add(Sum(rows[..|rows| - 1]), One(rows[|rows| - 1]))
  }

  function TTFTs(rows: seq<Row>): seq<int> {
    if rows == [] then []
    else TTFTs(rows[..|rows| - 1]) + if Sampled(rows[|rows| - 1]) then [rows[|rows| - 1].ttft.value] else []
  }

  /** The query: the rows of the window, and of the account if one is selected, in order. */
  function Selected(rows: seq<Row>, w: Window, account: Option<int>): seq<Row> {
    if rows == [] then []
    else
      var last := rows[|rows| - 1];
      Selected(rows[..|rows| - 1], w, account)
      + if InWindow(last.createdAt, w) && (account.Some? ==> last.accountID == account) then [last] else []
  }

  predicate AllInWindow(rows: seq<Row>, w: Window) {
    forall i :: 0 <= i < |rows| ==> InWindow(rows[i].createdAt, w)
  }

  lemma {:induction false} SelectedInWindow(rows: seq<Row>, w: Window, account: Option<int>)
    ensures AllInWindow(Selected(rows, w, account), w)
  {
    if rows != [] { SelectedInWindow(rows[..|rows| - 1], w, account); }
  }

  /** The rows that fall in bucket i. */
  function InBucket(rows: seq<Row>, w: Window, i: int): seq<Row> {
    if rows == [] then []
    else
      var last := rows[|rows| - 1];
      InBucket(rows[..|rows| - 1], w, i) + if BucketIndex(last.createdAt, w, BucketCount(w)) == i then [last] else []
  }

  // ---------------------------------------------------------------- model speeds

  datatype Speed = Speed(output: nat, durationMS: int, samples: nat)

  /** dashboardGenerationDurationMS */
  function Duration(r: Row): (d: Option<int>)
    ensures d.Some? ==> d.value > 0
  {
    if r.sse && r.ttft.None? then None
    else
      var d := if r.sse then r.latency - r.ttft.value else r.latency;
      if d > 0 then Some(d) else None
  }

  predicate Timed(r: Row) {
    r.model.Some? && Trim(r.model.value) != "" && TokensOf(r.usage).output > 0 && Duration(r).Some?
  }

  predicate TimedFor(r: Row, m: string) { Timed(r) && Trim(r.model.value) == m }

  function SpeedOf(rows: seq<Row>, m: string): Speed {
    if rows == [] then Speed(0, 0, 0)
    else
      var before, r := SpeedOf(rows[..|rows| - 1], m), rows[|rows| - 1];
      if TimedFor(r, m) then
        Speed(before.output + TokensOf(r.usage).output, before.durationMS + Duration(r).value, before.samples + 1)
      else before
  }

  /** The speeds of all models that occur in timed rows; no duration is zero, so every rate is defined. */
  ghost predicate SpeedsOk(speeds: map<string, Speed>, rows: seq<Row>) {
    && (forall m :: m in speeds <==> SpeedOf(rows, m).samples > 0)
    && (forall m :: m in speeds ==> speeds[m] == SpeedOf(rows, m) && speeds[m].durationMS > 0)
  }

  function WithRow(speeds: map<string, Speed>, r: Row): map<string, Speed> {
    if !Timed(r) then speeds
    else
      var m := Trim(r.model.value);
      var acc := if m in speeds then speeds[m] else Speed(0, 0, 0);
      speeds[m := Speed(acc.output + TokensOf(r.usage).output, acc.durationMS + Duration(r).value, acc.samples + 1)]
  }

  lemma {:induction false} NoSamplesNoSpeed(rows: seq<Row>, m: string)
    ensures SpeedOf(rows, m).samples == 0 ==> SpeedOf(rows, m) == Speed(0, 0, 0)
  {
    hide TimedFor;
    if rows != [] { NoSamplesNoSpeed(rows[..|rows| - 1], m); }
  }

  lemma SpeedsGrow(speeds: map<string, Speed>, rows: seq<Row>, r: Row)
    requires SpeedsOk(speeds, rows)
    ensures SpeedsOk(WithRow(speeds, r), rows + [r])
  {
    hide Trim, TokensOf, Duration;
    assert (rows + [r])[..|rows|] == rows;
    forall m ensures m in WithRow(speeds, r) <==> SpeedOf(rows + [r], m).samples > 0
      ensures m in WithRow(speeds, r) ==> WithRow(speeds, r)[m] == SpeedOf(rows + [r], m) && WithRow(speeds, r)[m].durationMS > 0
    {
      NoSamplesNoSpeed(rows, m);
    }
  }

  // ---------------------------------------------------------------- the one-pass loop

  datatype Aggregation = Aggregation(
    totals: Counts,
    series: seq<Counts>,
    errorRate: real,
    errorRates: seq<real>,
    p95: Option<int>,
    p95s: seq<Option<int>>,
    speeds: map<string, Speed>)

  function Rate(errors: nat, total: nat): real { if total == 0 then 0.0 else errors as real / total as real }

  predicate IsP95(p: Option<int>, values: seq<int>) {
    if values == [] then p.None? else p.Some? && NearestRank(values, p.value)
  }

  /** The aggregation, bucket by bucket, as filters and sums over the selected rows. */
  ghost predicate Aggregates(a: Aggregation, rows: seq<Row>, w: Window) {
    var n := BucketCount(w);
    && |a.series| == |a.errorRates| == |a.p95s| == n
    && a.totals == Sum(rows) && a.errorRate == Rate(a.totals.errors, a.totals.requests)
    && IsP95(a.p95, TTFTs(rows)) && SpeedsOk(a.speeds, rows)
    && forall i :: 0 <= i < n ==>
         && a.series[i] == Sum(InBucket(rows, w, i))
         && a.errorRates[i] == Rate(a.series[i].errors, a.series[i].requests)
         && IsP95(a.p95s[i], TTFTs(InBucket(rows, w, i)))
  }

  /** The loop's state after the rows so far. */
  ghost predicate Partial(rows: seq<Row>, w: Window, totals: Counts, series: seq<Counts>, all: seq<int>,
                          ttft: seq<seq<int>>, speeds: map<string, Speed>) {
    && |series| == |ttft| == BucketCount(w) && totals == Sum(rows) && all == TTFTs(rows) && SpeedsOk(speeds, rows)
    && forall i :: 0 <= i < |series| ==>
         series[i] == Sum(InBucket(rows, w, i)) && ttft[i] == TTFTs(InBucket(rows, w, i))
  }

  lemma RowCounts(rows: seq<Row>, r: Row, w: Window, totals: Counts, series: seq<Counts>, all: seq<int>,
                  ttft: seq<seq<int>>, speeds: map<string, Speed>, idx: nat)
    requires Partial(rows, w, totals, series, all, ttft, speeds)
    requires idx < |series| && BucketIndex(r.createdAt, w, BucketCount(w)) == idx
    ensures var sample := if Sampled(r) then [r.ttft.value] else [];
            Partial(rows + [r], w, Add(totals, One(r)), series[idx := Add(series[idx], One(r))], all + sample,
                    ttft[idx := ttft[idx] + sample], WithRow(speeds, r))
  {
    hide SpeedsOk, WithRow, One, Sampled, BucketIndex, BucketCount;
    SpeedsGrow(speeds, rows, r);
    assert (rows + [r])[..|rows|] == rows;
    OneBucketGrows(rows, r, w, idx);
    var kept := InBucket(rows, w, idx);
    assert (kept + [r])[..|kept|] == kept;
  }

  /** A row lands in its own bucket and leaves the others alone. */
  lemma OneBucketGrows(rows: seq<Row>, r: Row, w: Window, idx: int)
    requires BucketIndex(r.createdAt, w, BucketCount(w)) == idx
    ensures InBucket(rows + [r], w, idx) == InBucket(rows, w, idx) + [r]
    ensures forall i :: i != idx ==> InBucket(rows + [r], w, i) == InBucket(rows, w, i)
  {
    hide BucketIndex, BucketCount;
    assert (rows + [r])[..|rows|] == rows;
  }

  /** The loop over the log equals the per-bucket filter and sum, for every table and window. */
  method Aggregate(records: seq<Row>, w: Window, account: Option<int>) returns (a: Aggregation)
    requires WindowOk(w)
    ensures Aggregates(a, Selected(records, w, account), w)
  {
    hide SpeedsOk, WithRow, One, Sum, TTFTs, NearestRank, BucketIndex, BucketCount, InBucket;
    ghost var rows := Selected(records, w, account);
    SelectedInWindow(records, w, account);
    var count := BucketCount(w);
    BucketsCover(w);
    var totals, all, speeds := ZERO, [], map[];
    var series: seq<Counts> := seq(count, _ => ZERO);
    var ttft: seq<seq<int>> := seq(count, _ => []);
    NoRows(w, totals, series, all, ttft, speeds);
    var selected := Selected(records, w, account);
    for n := 0 to |selected|
      invariant Partial(rows[..n], w, totals, series, all, ttft, speeds)
    {
      var r := selected[n];
      var idx := BucketIndex(r.createdAt, w, count);
      IndexIsExact(r.createdAt, w, idx);
      if idx < 0 { continue; }
      RowCounts(rows[..n], r, w, totals, series, all, ttft, speeds, idx);
      assert rows[..n + 1] == rows[..n] + [r];
      var sample := if Sampled(r) then [r.ttft.value] else [];
      totals := Add(totals, One(r));
      series := series[idx := Add(series[idx], One(r))];
      all := all + sample;
      ttft := ttft[idx := ttft[idx] + sample];
      speeds := WithRow(speeds, r);
    }
    assert rows[..|rows|] == rows;
    a := Finish(rows, w, totals, series, all, ttft, speeds);
  }

  lemma NoRows(w: Window, totals: Counts, series: seq<Counts>, all: seq<int>, ttft: seq<seq<int>>, speeds: map<string, Speed>)
    requires totals == ZERO && all == [] && speeds == map[] && |series| == |ttft| == BucketCount(w)
    requires forall i :: 0 <= i < |series| ==> series[i] == ZERO && ttft[i] == []
    ensures Partial([], w, totals, series, all, ttft, speeds)
  {
  }

  /** The loops after the scan: the rates and the percentiles. */
  method Finish(ghost rows: seq<Row>, w: Window, totals: Counts, series: seq<Counts>, all: seq<int>,
                ttft: seq<seq<int>>, speeds: map<string, Speed>) returns (a: Aggregation)
    requires Partial(rows, w, totals, series, all, ttft, speeds)
    ensures Aggregates(a, rows, w)
  {
    hide SpeedsOk, Sum, TTFTs, NearestRank, BucketCount, InBucket;
    var rates: seq<real>, p95s: seq<Option<int>> := [], [];
    for i := 0 to |series|
      invariant |rates| == |p95s| == i
      invariant forall k :: 0 <= k < i ==> rates[k] == Rate(series[k].errors, series[k].requests) && IsP95(p95s[k], ttft[k])
    {
      var p := P95(ttft[i]);
      rates := rates + [Rate(series[i].errors, series[i].requests)];
      p95s := p95s + [p];
    }
    var p95 := P95(all);
    a := Aggregation(totals, series, Rate(totals.errors, totals.requests), rates, p95, p95s, speeds);
  }

  // ---------------------------------------------------------------- what the cards promise

  function SumSeries(series: seq<Counts>): Counts {
    if series == [] then ZERO else Add(SumSeries(series[..|series| - 1]), series[|series| - 1])
  }

  lemma {:induction false} AddToOne(series: seq<Counts>, i: nat, c: Counts)
    requires i < |series|
    ensures SumSeries(series[i := Add(series[i], c)]) == Add(SumSeries(series), c)
  {
    var changed := series[i := Add(series[i], c)];
    var last := |series| - 1;
    if i == last {
      assert changed[..last] == series[..last];
    } else {
      assert changed[..last] == series[..last][i := Add(series[..last][i], c)];
      AddToOne(series[..last], i, c);
    }
  }

  lemma AddZero(c: Counts)
    ensures Add(c, ZERO) == c
  {
  }

  lemma {:induction false} SumZeros(series: seq<Counts>)
    requires forall i :: 0 <= i < |series| ==> series[i] == ZERO
    ensures SumSeries(series) == ZERO
  {
    hide Add;
    if series != [] {
      var front := series[..|series| - 1];
      SumZeros(front);
      assert SumSeries(series) == Add(SumSeries(front), series[|series| - 1]);
      AddZero(SumSeries(front));
    }
  }

  /** The sum of every card's series is its total: each row of the window is counted in exactly one
      bucket. */
  lemma {:induction false} TotalsAddUp(rows: seq<Row>, w: Window, series: seq<Counts>)
    requires WindowOk(w) && AllInWindow(rows, w) && |series| == BucketCount(w)
    requires forall i :: 0 <= i < |series| ==> series[i] == Sum(InBucket(rows, w, i))
    ensures Sum(rows) == SumSeries(series)
    decreases |rows|
  {
    hide One, BucketIndex, BucketCount;
    if rows == [] {
      SumZeros(series);
    } else {
      var front, r := rows[..|rows| - 1], rows[|rows| - 1];
      var idx := BucketIndex(r.createdAt, w, BucketCount(w));
      IndexIsExact(r.createdAt, w, idx);
      var before := seq(|series|, i => Sum(InBucket(front, w, i)));
      TotalsAddUp(front, w, before);
      var kept := InBucket(front, w, idx);
      assert rows == front + [r];
      OneBucketGrows(front, r, w, idx);
      assert (kept + [r])[..|kept|] == kept;
      assert series == before[idx := Add(before[idx], One(r))];
      AddToOne(before, idx, One(r));
    }
  }

  lemma TTFTsGrow(rows: seq<Row>, r: Row)
    ensures TTFTs(rows + [r]) == TTFTs(rows) + (if Sampled(r) then [r.ttft.value] else [])
  {
    assert (rows + [r])[..|rows|] == rows;
  }

  /** The samples of the buckets are the samples of the window. */
  lemma {:induction false} SamplesMerge(rows: seq<Row>, w: Window, buckets: seq<seq<int>>)
    requires WindowOk(w) && AllInWindow(rows, w) && |buckets| == BucketCount(w)
    requires forall i :: 0 <= i < |buckets| ==> buckets[i] == TTFTs(InBucket(rows, w, i))
    ensures Merges(buckets, TTFTs(rows))
    decreases |rows|
  {
    if rows == [] {
      NoSamples(buckets);
    } else {
      hide BucketIndex, BucketCount, Sampled, Merges, TTFTs, InBucket;
      var front, r := rows[..|rows| - 1], rows[|rows| - 1];
      assert rows == front + [r];
      var idx := BucketIndex(r.createdAt, w, BucketCount(w));
      IndexIsExact(r.createdAt, w, idx);
      var before := seq(|buckets|, i => TTFTs(InBucket(front, w, i)));
      SamplesMerge(front, w, before);
      OneBucketGrows(front, r, w, idx);
      TTFTsGrow(front, r);
      TTFTsGrow(InBucket(front, w, idx), r);
      var sample := if Sampled(r) then [r.ttft.value] else [];
      assert buckets == before[idx := before[idx] + sample];
      MergeOne(before, TTFTs(front), idx, sample);
    }
  }

  lemma {:induction false} NoSamples(buckets: seq<seq<int>>)
    requires forall i :: 0 <= i < |buckets| ==> buckets[i] == []
    ensures Merges(buckets, [])
  {
    if buckets != [] { NoSamples(buckets[..|buckets| - 1]); }
  }

  lemma MergeOne(buckets: seq<seq<int>>, all: seq<int>, i: nat, sample: seq<int>)
    requires Merges(buckets, all) && i < |buckets|
    ensures Merges(buckets[i := buckets[i] + sample], all + sample)
  {
    forall v ensures CountAtMost(all + sample, v) == SumAtMost(buckets[i := buckets[i] + sample], v) {
      SumOne(buckets, i, sample, v);
      CountConcat(all, sample, v);
    }
    SumOne(buckets, i, sample, 0);
  }

  lemma {:induction false} SumOne(buckets: seq<seq<int>>, i: nat, sample: seq<int>, v: int)
    requires i < |buckets|
    ensures var after := buckets[i := buckets[i] + sample];
            SumAtMost(after, v) == SumAtMost(buckets, v) + CountAtMost(sample, v)
            && Percentile.Samples(after) == Percentile.Samples(buckets) + |sample|
  {
    var after := buckets[i := buckets[i] + sample];
    var last := |buckets| - 1;
    if i == last {
      assert after[..last] == buckets[..last];
      CountConcat(buckets[i], sample, v);
    } else {
      assert after[..last] == buckets[..last][i := buckets[..last][i] + sample];
      SumOne(buckets[..last], i, sample, v);
    }
  }

  /** For every aggregation the loop returns: the cards add up, and the overall p95 lies between the
      smallest and the largest p95 of the buckets that have samples. */
  lemma CardsAreConsistent(a: Aggregation, records: seq<Row>, w: Window, account: Option<int>, lo: int, hi: int)
    requires WindowOk(w) && Aggregates(a, Selected(records, w, account), w)
    requires forall i :: 0 <= i < |a.p95s| && a.p95s[i].Some? ==> lo <= a.p95s[i].value <= hi
    ensures a.totals == SumSeries(a.series)
    ensures a.p95.Some? ==> lo <= a.p95.value <= hi
  {
    hide Sum, TTFTs, NearestRank, BucketCount, InBucket, SpeedsOk, Merges;
    var rows := Selected(records, w, account);
    SelectedInWindow(records, w, account);
    TotalsAddUp(rows, w, a.series);
    var buckets := seq(|a.series|, i => TTFTs(InBucket(rows, w, i)));
    SamplesMerge(rows, w, buckets);
    if a.p95.Some? {
      var p95 := seq(|a.p95s|, i requires 0 <= i < |a.p95s| => if a.p95s[i].Some? then a.p95s[i].value else 0);
      OverallIsBetween(buckets, p95, TTFTs(rows), a.p95.value, lo, hi);
    }
  }
}
