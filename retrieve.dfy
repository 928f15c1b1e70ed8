/**
 * The retrieval side of the Qiniu CDN exporter: the query window, the
 * requests sent to the provider, and the three reducers that fold the
 * decoded statistics series into scalar metrics (bandwidth average, request
 * and byte hit rates, status-code proportions), plus the domain listing.
 *
 * The provider is the decoded content of its responses, given as a total
 * function of the request; transport, signing and JSON decoding are not
 * part of this model.
 */
module Retrieve {
  import opened Sums
  import opened Floats
  import opened GoMaps

  // ---------------------------------------------------------------------
  // Decoded responses
  // ---------------------------------------------------------------------

  /** One element of the `domains` array of the domain listing. */
  datatype DomainDescriptor = DomainDescriptor(
    name: string, kind: string, cname: string,
    geoCover: string, platform: string, protocol: string)

  /** Bandwidth samples of one data point, per zone (bytes per second). */
  datatype Zone = Zone(china: seq<int>, oversea: seq<int>)

  /** Request counts and byte counts served from cache and from origin. */
  datatype HitMissDetail = HitMissDetail(
    hit: seq<int>, miss: seq<int>, trafficHit: seq<int>, trafficMiss: seq<int>)

  // ---------------------------------------------------------------------
  // Requests
  // ---------------------------------------------------------------------

  /** Query of the domain listing (GET /domain). */
  datatype DomainQuery = DomainQuery(limit: int, sourceTypes: seq<string>)

  /** Body of POST /v2/tune/monitoring/bandwidth. */
  datatype BandwidthQuery = BandwidthQuery(
    startDate: int, endDate: int, granularity: string, domains: string, kind: string)

  /** Body of POST /v2/tune/loganalyze/hitmiss and /v2/tune/loganalyze/statuscode; dates are day numbers. */
  datatype LogQuery = LogQuery(startDate: int, endDate: int, freq: string, domains: seq<string>)

  /** What the provider answers, already decoded, for each request it is sent. */
  datatype Provider = Provider(
    domains: DomainQuery -> seq<DomainDescriptor>,
    bandwidth: BandwidthQuery -> GoMap<Zone>,
    hitMiss: LogQuery -> HitMissDetail,
    statusCode: LogQuery -> GoMap<seq<int>>)

  const DomainListQuery: DomainQuery := DomainQuery(50, ["domain"])

  // ---------------------------------------------------------------------
  // Time window
  // ---------------------------------------------------------------------

  /** A query window, as instants in seconds. */
  datatype Window = Window(start: int, end: int)

  /**
   * The window a reducer queries: it starts `rangeTime` seconds and ends
   * `delayTime` seconds before `now`. Nothing checks that it is non-empty.
   */
  function TimeWindow(now: int, rangeTime: int, delayTime: int): (w: Window)
    ensures w.start == now - rangeTime && w.end == now - delayTime
    ensures w.end - w.start == rangeTime - delayTime
    ensures w.start < w.end <==> rangeTime > delayTime
    ensures w.end <= now <==> delayTime >= 0
    ensures w.start <= now <==> rangeTime >= 0
  {
    Window(now - rangeTime, now - delayTime)
  }

  /** The bandwidth request for one domain (retrieve/cdn_retrieve.go, lines 152-160). */
  function BandwidthQueryFor(domain: string, rangeTime: int, delayTime: int,
                             granularity: string, now: int): (q: BandwidthQuery)
    ensures Window(q.startDate, q.endDate) == TimeWindow(now, rangeTime, delayTime)
    ensures q.domains == domain && q.granularity == granularity && q.kind == "bandwidth"
  {
    var w := TimeWindow(now, rangeTime, delayTime);
    BandwidthQuery(w.start, w.end, granularity, domain, "bandwidth")
  }

  const SecondsPerDay: int := 86400

  /** The calendar day (days since the epoch) that an instant falls in. */
  function DayOf(t: int): (d: int)
    ensures d * SecondsPerDay <= t < (d + 1) * SecondsPerDay
  {
    t / SecondsPerDay
  }

  /**
   * Days are counted by flooring, as a calendar date is: the last second
   * before the epoch falls in day -1, and a day runs up to, not including,
   * the next multiple of 86400.
   */
  lemma DayOfEdges()
    ensures DayOf(-1) == -1 && DayOf(0) == 0
    ensures DayOf(86399) == 0 && DayOf(86400) == 1
  {
  }

  /** A later instant never falls in an earlier day. */
  lemma DayOfMonotone(s: int, t: int)
    requires s <= t
    ensures DayOf(s) <= DayOf(t)
  {
    assert DayOf(s) * SecondsPerDay < (DayOf(t) + 1) * SecondsPerDay;
  }

  /**
   * The hit-miss and status-code request for one domain
   * (retrieve/cdn_retrieve.go, lines 188-195 and 231-239): the window's ends
   * are formatted as dates, so only their days are sent.
   */
  function LogQueryFor(domain: string, rangeTime: int, delayTime: int,
                       granularity: string, now: int): (q: LogQuery)
    ensures var w := TimeWindow(now, rangeTime, delayTime);
      && q.startDate * SecondsPerDay <= w.start < (q.startDate + 1) * SecondsPerDay
      && q.endDate * SecondsPerDay <= w.end < (q.endDate + 1) * SecondsPerDay
    ensures q.domains == [domain] && q.freq == granularity
  {
    var w := TimeWindow(now, rangeTime, delayTime);
    LogQuery(DayOf(w.start), DayOf(w.end), granularity, [domain])
  }

  /**
   * The day range of a log query is non-empty whenever the window is, and it
   * may be a single day even for a window of several hours.
   */
  lemma LogQueryDays(domain: string, rangeTime: int, delayTime: int, granularity: string, now: int)
    requires rangeTime >= delayTime
    ensures LogQueryFor(domain, rangeTime, delayTime, granularity, now).startDate
         <= LogQueryFor(domain, rangeTime, delayTime, granularity, now).endDate
  {
    var w := TimeWindow(now, rangeTime, delayTime);
    DayOfMonotone(w.start, w.end);
  }

  /** A window that lies inside day `d` asks for that day only, as start and as end. */
  lemma LogQuerySameDay(domain: string, rangeTime: int, delayTime: int, granularity: string, now: int, d: int)
    requires rangeTime >= delayTime
    requires d * SecondsPerDay <= now - rangeTime && now - delayTime < (d + 1) * SecondsPerDay
    ensures LogQueryFor(domain, rangeTime, delayTime, granularity, now).startDate == d
    ensures LogQueryFor(domain, rangeTime, delayTime, granularity, now).endDate == d
  {
  }

  /** A one-hour window, 2 to 1 hours before 100000 seconds, asks for day 1 only. */
  lemma LogQueryHourExample()
    ensures var q := LogQueryFor("a.example.com", 7200, 3600, "day", 100000);
      q.startDate == 1 && q.endDate == 1
  {
    LogQuerySameDay("a.example.com", 7200, 3600, "day", 100000, 1);
  }

  // ---------------------------------------------------------------------
  // Domain listing
  // ---------------------------------------------------------------------

  /** The names of the account's domains, one per descriptor, in order. */
  method GetDomains(provider: Provider) returns (domainList: seq<string>)
    ensures |domainList| == |provider.domains(DomainListQuery)|
    ensures forall i :: 0 <= i < |domainList| ==>
              domainList[i] == provider.domains(DomainListQuery)[i].name
  {
    var domains := provider.domains(DomainListQuery);
    domainList := [];
    for i := 0 to |domains|
      invariant |domainList| == i
      invariant forall k :: 0 <= k < i ==> domainList[k] == domains[k].name
    {
      domainList := domainList + [domains[i].name];
    }
  }

  // ---------------------------------------------------------------------
  // Accumulation
  // ---------------------------------------------------------------------

  /** `for _, v := range s { total += v }`. */
  method SumSamples(s: seq<int>) returns (total: int)
    ensures total == Sum(s)
  {
    total := 0;
    for i := 0 to |s|
      invariant total == Sum(s[..i])
    {
      SumStep(s, i);
      total := total + s[i];
    }
    assert s[..|s|] == s;
  }

  // ---------------------------------------------------------------------
  // Bandwidth
  // ---------------------------------------------------------------------

  function ChinaOf(point: Keyed<Zone>): int
  {
    Sum(point.value.china)
  }

  /** The sum of every China sample of every data point. */
  function ChinaTotal(data: seq<Keyed<Zone>>): int
  {
    SumBy(data, ChinaOf)
  }

  /** The number of China samples of the data point visited last. */
  function LastChinaCount(data: seq<Keyed<Zone>>): nat
  {
    if data == [] then 0 else |data[|data| - 1].value.china|
  }

  /** The bandwidth average as the source computes it. */
  function BandwidthAverage(data: seq<Keyed<Zone>>): Value
  {
    Div(ChinaTotal(data), LastChinaCount(data))
  }

  /** `GetBandWidth`: the China samples of every data point over the China length of the last point visited. */
  method GetBandWidth(provider: Provider, domain: string, rangeTime: int, delayTime: int,
                      granularity: string, now: int) returns (bandWithAverage: Value)
    ensures bandWithAverage ==
      BandwidthAverage(provider.bandwidth(BandwidthQueryFor(domain, rangeTime, delayTime, granularity, now)))
  {
    var response := provider.bandwidth(BandwidthQueryFor(domain, rangeTime, delayTime, granularity, now));
    var bandWithTotal, count := 0, 0;
    for i := 0 to |response|
      invariant bandWithTotal == SumBy(response[..i], ChinaOf)
      invariant count == LastChinaCount(response[..i])
    {
      var point := response[i];
      var pointTotal := SumSamples(point.value.china);
      SumByStep(response, ChinaOf, i);
      bandWithTotal := bandWithTotal + pointTotal;
      count := |point.value.china|;
    }
    assert response[..|response|] == response;
    bandWithAverage := Div(bandWithTotal, count);
  }

  /** Only China samples count: the Oversea series never changes the result. */
  lemma {:induction false} OverseaIgnored(data: seq<Keyed<Zone>>, other: seq<Keyed<Zone>>)
    requires |data| == |other|
    requires forall i :: 0 <= i < |data| ==> data[i].value.china == other[i].value.china
    ensures ChinaTotal(data) == ChinaTotal(other)
    ensures BandwidthAverage(data) == BandwidthAverage(other)
  {
    if data != [] {
      var n := |data| - 1;
      OverseaIgnored(data[..n], other[..n]);
    }
  }

  /** The total does not depend on the order in which the data points are visited. */
  lemma ChinaTotalAnyOrder(data: seq<Keyed<Zone>>, other: seq<Keyed<Zone>>)
    requires multiset(data) == multiset(other)
    ensures ChinaTotal(data) == ChinaTotal(other)
  {
    SumByPermutation(data, other, ChinaOf);
  }

  /**
   * The divisor is the China length of the last data point visited, not the
   * number of samples summed; with no data points it is zero.
   */
  lemma BandwidthDivisor(data: seq<Keyed<Zone>>)
    ensures data == [] ==> BandwidthAverage(data) == NonFinite
    ensures data != [] ==>
      BandwidthAverage(data) == Div(ChinaTotal(data), |data[|data| - 1].value.china|)
  {
  }

  /** With a single data point the result is the true mean of its China samples. */
  lemma SinglePointMean(key: string, zone: Zone)
    requires |zone.china| > 0
    ensures BandwidthAverage([Keyed(key, zone)]).Finite?
    ensures BandwidthAverage([Keyed(key, zone)]).x * (|zone.china| as real) == Sum(zone.china) as real
  {
    SumBySingle(Keyed(key, zone), ChinaOf);
  }

  /** Two visiting orders of the same data points can give different averages. */
  lemma BandwidthDependsOnOrder()
    ensures BandwidthAverage([Keyed("a", Zone([4], [])), Keyed("b", Zone([2, 2], []))]) == Finite(4.0)
    ensures BandwidthAverage([Keyed("b", Zone([2, 2], [])), Keyed("a", Zone([4], []))]) == Finite(8.0)
  {
    var pa, pb := Keyed("a", Zone([4], [])), Keyed("b", Zone([2, 2], []));
    assert ChinaOf(pa) == 4 by {
      assert [4][..0] == [];
    }
    assert ChinaOf(pb) == 4 by {
      assert [2, 2][..1] == [2] && [2][..0] == [];
    }
    SumByAppend([pa], [pb], ChinaOf);
    SumByAppend([pb], [pa], ChinaOf);
    SumBySingle(pa, ChinaOf);
    SumBySingle(pb, ChinaOf);
    assert [pa] + [pb] == [pa, pb] && [pb] + [pa] == [pb, pa];
  }

  // ---------------------------------------------------------------------
  // Hit and byte-hit ratios
  // ---------------------------------------------------------------------

  /** `sum(hits) / (sum(misses) + sum(hits))` as the source computes it. */
  function HitRatio(hits: seq<int>, misses: seq<int>): Value
  {
    Div(Sum(hits), Sum(misses) + Sum(hits))
  }

  /** `GetHitMiss`: the request hit ratio and the byte hit ratio of the window. */
  method GetHitMiss(provider: Provider, domain: string, rangeTime: int, delayTime: int,
                    granularity: string, now: int)
    returns (hitRateAverage: Value, fluxHitRateAverage: Value)
    ensures var d := provider.hitMiss(LogQueryFor(domain, rangeTime, delayTime, granularity, now));
      hitRateAverage == HitRatio(d.hit, d.miss) &&
      fluxHitRateAverage == HitRatio(d.trafficHit, d.trafficMiss)
  {
    var response := provider.hitMiss(LogQueryFor(domain, rangeTime, delayTime, granularity, now));
    var hitTotal := SumSamples(response.hit);
    var mistTotal := SumSamples(response.miss);
    var fluxHitTotal := SumSamples(response.trafficHit);
    var fluxMissTotal := SumSamples(response.trafficMiss);
    hitRateAverage := Div(hitTotal, mistTotal + hitTotal);
    fluxHitRateAverage := Div(fluxHitTotal, fluxHitTotal + fluxMissTotal);
  }

  /** With non-negative counts the ratio is defined exactly when some count is positive. */
  lemma HitRatioDefined(hits: seq<int>, misses: seq<int>)
    requires NonNegative(hits) && NonNegative(misses)
    ensures HitRatio(hits, misses).Finite? <==> Sum(hits) > 0 || Sum(misses) > 0
  {
    SumNonNegative(hits);
    SumNonNegative(misses);
  }

  /** With non-negative counts and a positive denominator the ratio is a fraction. */
  lemma HitRatioBounds(hits: seq<int>, misses: seq<int>)
    requires NonNegative(hits) && NonNegative(misses)
    requires Sum(hits) + Sum(misses) > 0
    ensures HitRatio(hits, misses).Finite?
    ensures 0.0 <= HitRatio(hits, misses).x <= 1.0
    ensures HitRatio(hits, misses).x == 1.0 <==> Sum(misses) == 0
    ensures HitRatio(hits, misses).x == 0.0 <==> Sum(hits) == 0
  {
    SumNonNegative(hits);
    SumNonNegative(misses);
    Share(Sum(hits), Sum(misses));
  }

  /** hit = [10, 20] and miss = [5, 5] give 30 / 40. */
  lemma HitRatioExample()
    ensures HitRatio([10, 20], [5, 5]) == Finite(0.75)
  {
    assert [10, 20][..1] == [10] && [10][..0] == [];
    assert [5, 5][..1] == [5] && [5][..0] == [];
  }

  // ---------------------------------------------------------------------
  // Status-code proportions
  // ---------------------------------------------------------------------

  /** `strings.HasSuffix(status, "x")`: a class token such as "2xx", not an exact code. */
  predicate IsAggregate(status: string)
  {
    |status| > 0 && status[|status| - 1] == 'x'
  }

  /** `strings.HasPrefix(status, string(c))`. */
  predicate StartsWith(status: string, c: char)
  {
    |status| > 0 && status[0] == c
  }

  /** The leading characters that have a class bucket. */
  const Classes: seq<char> := ['2', '3', '4', '5']

  /** The bucket key of a class: "2xx", "3xx", "4xx" or "5xx". */
  function Bucket(c: char): (b: string)
    ensures |b| == 3 && b[0] == c && IsAggregate(b)
  {
    [c] + "xx"
  }

  /** Which status keys a total or a proportion sum ranges over. */
  datatype Selector = AllExact | InClass(c: char)

  predicate Selects(sel: Selector, status: string)
  {
    !IsAggregate(status) && (sel.InClass? ==> StartsWith(status, sel.c))
  }

  function EntryTotal(e: Keyed<seq<int>>): int
  {
    Sum(e.value)
  }

  function AggregateWeight(e: Keyed<seq<int>>): int
  {
    if IsAggregate(e.key) then Sum(e.value) else 0
  }

  function Weight(sel: Selector): Keyed<seq<int>> -> int
  {
    (e: Keyed<seq<int>>) => if Selects(sel, e.key) then Sum(e.value) else 0
  }

  /** Weight of a key, read from a map of per-key totals. */
  function KeyWeight(totals: map<string, int>, sel: Selector): string -> int
  {
    (k: string) => if k in totals && Selects(sel, k) then totals[k] else 0
  }

  /** The grand total: every sample of every key, class tokens included. */
  function GrandTotal(codes: seq<Keyed<seq<int>>>): int
  {
    SumBy(codes, EntryTotal)
  }

  /** The samples of the keys `sel` selects. */
  function SelectedTotal(codes: seq<Keyed<seq<int>>>, sel: Selector): int
  {
    SumBy(codes, Weight(sel))
  }

  /** The samples of the class-token keys. */
  function AggregateTotal(codes: seq<Keyed<seq<int>>>): int
  {
    SumBy(codes, AggregateWeight)
  }

  /** `statusTotal`: each key mapped to the sum of its samples. */
  function Totals(codes: seq<Keyed<seq<int>>>): map<string, int>
  {
    if codes == [] then map[]
    else Totals(codes[..|codes| - 1])[codes[|codes| - 1].key := Sum(codes[|codes| - 1].value)]
  }

  /** Every key of the response has an entry, holding the sum of that key's samples. */
  lemma TotalsShape(codes: seq<Keyed<seq<int>>>)
    ensures forall k :: k in Totals(codes) <==> k in KeysOf(codes)
    ensures DistinctKeys(codes) ==>
      forall i :: 0 <= i < |codes| ==> Totals(codes)[codes[i].key] == Sum(codes[i].value)
  {
    TotalsKeys(codes);
    if DistinctKeys(codes) {
      TotalsValues(codes);
    }
  }

  /** The keys of `Totals` are the keys of the response. */
  lemma {:induction false} TotalsKeys(codes: seq<Keyed<seq<int>>>)
    ensures forall k :: k in Totals(codes) <==> k in KeysOf(codes)
  {
    if codes != [] {
      var n := |codes| - 1;
      assert KeysOf(codes) == KeysOf(codes[..n]) + [codes[n].key];
      TotalsKeys(codes[..n]);
    }
  }

  /** Each key of a Go map holds the sum of its own samples in `Totals`. */
  lemma {:induction false} TotalsValues(codes: seq<Keyed<seq<int>>>)
    requires DistinctKeys(codes)
    ensures forall i :: 0 <= i < |codes| ==> codes[i].key in Totals(codes)
    ensures forall i :: 0 <= i < |codes| ==> Totals(codes)[codes[i].key] == Sum(codes[i].value)
  {
    if codes != [] {
      var n := |codes| - 1;
      var prefix := codes[..n];
      assert DistinctKeys(prefix);
      TotalsValues(prefix);
      forall i | 0 <= i < n
        ensures codes[i].key != codes[n].key && codes[i] == prefix[i]
      {
      }
    }
  }

  /** At least one of `keys` is an exact code of class `c`. */
  predicate HasMember(keys: seq<string>, c: char)
  {
    exists k :: k in keys && Selects(InClass(c), k)
  }

  /** The exact codes among the keys of the response. */
  function ExactCodes(codes: seq<Keyed<seq<int>>>): set<string>
  {
    set k | k in KeysOf(codes) && !IsAggregate(k)
  }

  /** The class buckets that some exact code of the response falls into. */
  function Buckets(codes: seq<Keyed<seq<int>>>): set<string>
  {
    set c | c in Classes && HasMember(KeysOf(codes), c) :: Bucket(c)
  }

  /**
   * `statusProportion` as a function of the response: each exact code maps to
   * its share of the grand total, and each class bucket that some exact code
   * falls into maps to the share of all the exact codes of that class.
   */
  function Proportions(codes: GoMap<seq<int>>): map<string, Value>
  {
    TotalsShape(codes);
    var totals, grand := Totals(codes), GrandTotal(codes);
    map k | k in ExactCodes(codes) + Buckets(codes) ::
      if IsAggregate(k) then Div(SelectedTotal(codes, InClass(k[0])), grand)
      else Div(totals[k], grand)
  }

  /** `m[key] += v` on a map of float64: a missing key reads as zero. */
  function AddTo(m: map<string, Value>, key: string, v: Value): map<string, Value>
  {
    m[key := Add(if key in m then m[key] else Finite(0.0), v)]
  }

  /** One iteration of the proportion loop, for key `status` with total `total`. */
  function Record(sp: map<string, Value>, status: string, total: int, grand: int): map<string, Value>
  {
    if IsAggregate(status) then sp
    else
      var proportion := Div(total, grand);
      var sp := sp[status := proportion];
      if StartsWith(status, '2') then AddTo(sp, "2xx", proportion)
      else if StartsWith(status, '3') then AddTo(sp, "3xx", proportion)
      else if StartsWith(status, '4') then AddTo(sp, "4xx", proportion)
      else if StartsWith(status, '5') then AddTo(sp, "5xx", proportion)
      else sp
  }

  /**
   * `m[key] += v` leaves every other key alone, adds `v` to a present key
   * and, on a missing key, stores `0.0 + v`.
   */
  lemma AddToEffect(m: map<string, Value>, key: string, v: Value)
    ensures AddTo(m, key, v).Keys == m.Keys + {key}
    ensures forall k :: k in m && k != key ==> AddTo(m, key, v)[k] == m[k]
    ensures key in m ==> AddTo(m, key, v)[key] == Add(m[key], v)
    ensures key !in m ==> AddTo(m, key, v)[key] == Add(Finite(0.0), v)
    ensures key !in m && v.Finite? ==> AddTo(m, key, v)[key] == v
  {
  }

  /**
   * One iteration of the proportion loop: a class token changes nothing;
   * an exact code gets its share, and only its own class bucket (if any)
   * changes besides it.
   */
  lemma RecordEffect(sp: map<string, Value>, status: string, total: int, grand: int)
    ensures IsAggregate(status) ==> Record(sp, status, total, grand) == sp
    ensures !IsAggregate(status) ==>
      status in Record(sp, status, total, grand) &&
      Record(sp, status, total, grand)[status] == Div(total, grand)
    ensures forall k :: k in sp && k != status && !IsAggregate(k) ==>
      k in Record(sp, status, total, grand) && Record(sp, status, total, grand)[k] == sp[k]
    ensures forall k :: k in Record(sp, status, total, grand) ==>
      k in sp || k == status || (|status| > 0 && status[0] in Classes && k == Bucket(status[0]))
  {
    if !IsAggregate(status) {
      forall c | c in Classes
        ensures Bucket(c) != status
      {
      }
      if |status| > 0 && status[0] in Classes {
        RecordInClass(sp, status, total, grand);
      }
    }
  }

  /**
   * Edge keys: the empty key and a key like "204" are exact codes, "5xx" is
   * a class token; the empty key and codes outside 2-5 get no bucket.
   */
  lemma StatusKeyEdges()
    ensures !IsAggregate("") && !IsAggregate("200") && IsAggregate("5xx")
    ensures !StartsWith("", '2') && StartsWith("404", '4')
    ensures Record(map[], "", 3, 6) == map["" := Div(3, 6)]
    ensures Record(map[], "5xx", 3, 6) == map[]
    ensures Record(map[], "103", 1, 4) == map["103" := Finite(0.25)]
    ensures Record(map["2xx" := Finite(0.25)], "204", 1, 4) == map["2xx" := Finite(0.5), "204" := Finite(0.25)]
  {
    assert Record(map[], "103", 1, 4) == map["103" := Div(1, 4)];
  }

  /**
   * What the proportion map holds once the keys `seen` have been visited:
   * exactly the exact codes among them, each with its share, and the buckets
   * of their classes, each with the share of its members seen so far.
   */
  ghost predicate Accounts(sp: map<string, Value>, seen: seq<string>, totals: map<string, int>, grand: int)
  {
    && (forall k :: k in sp ==>
          (k in seen && !IsAggregate(k)) || (exists c :: c in Classes && k == Bucket(c) && HasMember(seen, c)))
    && (forall k :: k in seen && !IsAggregate(k) ==>
          k in sp && k in totals && sp[k] == Div(totals[k], grand))
    && (forall c :: c in Classes && HasMember(seen, c) ==>
          Bucket(c) in sp && sp[Bucket(c)] == Div(SumBy(seen, KeyWeight(totals, InClass(c))), grand))
  }

  /**
   * The first loop of the status-code reducer: each key's total, and the
   * grand total of every sample of every key.
   */
  method StatusTotals(codes: GoMap<seq<int>>) returns (statusTotal: map<string, int>, allStatusTotal: int)
    ensures statusTotal == Totals(codes) && allStatusTotal == GrandTotal(codes)
  {
    allStatusTotal := 0;
    statusTotal := map[];
    for i := 0 to |codes|
      invariant statusTotal == Totals(codes[..i])
      invariant allStatusTotal == GrandTotal(codes[..i])
    {
      var key, point := codes[i].key, codes[i].value;
      var total := SumSamples(point);
      SumByStep(codes, EntryTotal, i);
      assert codes[..i + 1][..i] == codes[..i];
      allStatusTotal := allStatusTotal + total;
      statusTotal := statusTotal[key := total];
    }
    assert codes[..|codes|] == codes;
  }

  /**
   * `GetStatusCode`: every exact code's share of the grand total, plus one
   * bucket per class 2-5 summing the shares of its codes.
   */
  method GetStatusCode(provider: Provider, domain: string, rangeTime: int, delayTime: int,
                       granularity: string, now: int) returns (statusProportion: map<string, Value>)
    ensures statusProportion ==
      Proportions(provider.statusCode(LogQueryFor(domain, rangeTime, delayTime, granularity, now)))
  {
    var codes := provider.statusCode(LogQueryFor(domain, rangeTime, delayTime, granularity, now));
    var statusTotal, allStatusTotal := StatusTotals(codes);
    TotalsShape(codes);

    statusProportion := map[];
    var order := IterationOrder(statusTotal);
    for j := 0 to |order|
      invariant Accounts(statusProportion, order[..j], statusTotal, allStatusTotal)
    {
      var status := order[j];
      RecordStep(statusProportion, order, j, statusTotal, allStatusTotal);
      statusProportion := Record(statusProportion, status, statusTotal[status], allStatusTotal);
    }
    assert order[..|order|] == order;
    AccountsIsProportions(codes, order, statusProportion);
  }

  /** An exact code of a class adds its share to that class's bucket. */
  lemma RecordInClass(sp: map<string, Value>, status: string, total: int, grand: int)
    requires !IsAggregate(status) && |status| > 0 && status[0] in Classes
    ensures Record(sp, status, total, grand) ==
      AddTo(sp[status := Div(total, grand)], Bucket(status[0]), Div(total, grand))
  {
    assert Bucket('2') == "2xx" && Bucket('3') == "3xx" && Bucket('4') == "4xx" && Bucket('5') == "5xx";
  }

  /** Visiting one more key extends what has been seen by that key. */
  lemma HasMemberStep(seen: seq<string>, s: string, c: char)
    ensures HasMember(seen + [s], c) <==> HasMember(seen, c) || Selects(InClass(c), s)
  {
    if HasMember(seen + [s], c) {
      var k :| k in seen + [s] && Selects(InClass(c), k);
      assert k in seen || k == s;
    }
    if HasMember(seen, c) {
      var k :| k in seen && Selects(InClass(c), k);
      assert k in seen + [s];
    }
    if Selects(InClass(c), s) {
      assert s in seen + [s];
    }
  }

  /** When no key seen so far is a member of class `c`, its weight sums to zero. */
  lemma NoMemberNoWeight(seen: seq<string>, totals: map<string, int>, c: char)
    requires !HasMember(seen, c)
    ensures SumBy(seen, KeyWeight(totals, InClass(c))) == 0
  {
    forall i | 0 <= i < |seen|
      ensures KeyWeight(totals, InClass(c))(seen[i]) == 0
    {
      assert seen[i] in seen;
    }
    SumByZero(seen, KeyWeight(totals, InClass(c)));
  }

  /** Bucket keys differ from each other and from every exact code. */
  lemma BucketKeys(c: char, d: char, s: string)
    ensures Bucket(c) == Bucket(d) <==> c == d
    ensures !IsAggregate(s) ==> Bucket(c) != s
  {
    assert Bucket(c)[0] == c && Bucket(d)[0] == d;
  }

  /** The loop at retrieve/cdn_retrieve.go lines 263-278 keeps `Accounts` from one key to the next. */
  lemma RecordStep(sp: map<string, Value>, order: seq<string>, j: nat, totals: map<string, int>, grand: int)
    requires j < |order| && Distinct(order)
    requires forall k :: k in order ==> k in totals
    requires Accounts(sp, order[..j], totals, grand)
    ensures Accounts(Record(sp, order[j], totals[order[j]], grand), order[..j + 1], totals, grand)
  {
    var seen, s := order[..j], order[j];
    assert order[..j + 1] == seen + [s];
    forall i | 0 <= i < j
      ensures seen[i] != s
    {
    }
    if IsAggregate(s) {
      StepAggregate(sp, seen, s, totals, grand);
    } else if |s| > 0 && s[0] in Classes {
      StepClassed(sp, seen, s, totals, grand);
    } else {
      StepUnclassed(sp, seen, s, totals, grand);
    }
  }

  /** Visiting a class-token key of the response keeps `Accounts` and leaves every bucket as it was. */
  lemma StepAggregate(sp: map<string, Value>, seen: seq<string>, s: string, totals: map<string, int>, grand: int)
    requires IsAggregate(s) && s in totals
    requires Accounts(sp, seen, totals, grand)
    ensures Accounts(Record(sp, s, totals[s], grand), seen + [s], totals, grand)
  {
    forall c | c in Classes
      ensures HasMember(seen + [s], c) == HasMember(seen, c)
      ensures SumBy(seen + [s], KeyWeight(totals, InClass(c))) == SumBy(seen, KeyWeight(totals, InClass(c)))
    {
      HasMemberStep(seen, s, c);
      SumBySnoc(seen, s, KeyWeight(totals, InClass(c)));
    }
    forall k | k in seen + [s] && !IsAggregate(k)
      ensures k in seen
    {
    }
  }

  /** Visiting an exact code outside classes 2-5 records its share and touches no bucket. */
  lemma StepUnclassed(sp: map<string, Value>, seen: seq<string>, s: string, totals: map<string, int>, grand: int)
    requires !IsAggregate(s) && !(|s| > 0 && s[0] in Classes) && s in totals && s !in seen
    requires forall k :: k in seen ==> k in totals
    requires Accounts(sp, seen, totals, grand)
    ensures Accounts(Record(sp, s, totals[s], grand), seen + [s], totals, grand)
  {
    var sp' := Record(sp, s, totals[s], grand);
    assert sp' == sp[s := Div(totals[s], grand)];
    forall c | c in Classes
      ensures HasMember(seen + [s], c) == HasMember(seen, c)
      ensures SumBy(seen + [s], KeyWeight(totals, InClass(c))) == SumBy(seen, KeyWeight(totals, InClass(c)))
      ensures Bucket(c) != s
    {
      HasMemberStep(seen, s, c);
      SumBySnoc(seen, s, KeyWeight(totals, InClass(c)));
      BucketKeys(c, c, s);
    }
    AccountsExactStep(sp, seen, s, totals, grand, sp');
  }

  /** Visiting an exact code of a class records its share and adds it to its class's bucket. */
  lemma StepClassed(sp: map<string, Value>, seen: seq<string>, s: string, totals: map<string, int>, grand: int)
    requires !IsAggregate(s) && |s| > 0 && s[0] in Classes && s in totals && s !in seen
    requires forall k :: k in seen ==> k in totals
    requires Accounts(sp, seen, totals, grand)
    ensures Accounts(Record(sp, s, totals[s], grand), seen + [s], totals, grand)
  {
    RecordInClass(sp, s, totals[s], grand);
    StepClassedBucket(sp, seen, s, totals, grand);
  }

  /** `Accounts` survives recording an exact code of a class and adding its share to the bucket. */
  lemma StepClassedBucket(sp: map<string, Value>, seen: seq<string>, s: string, totals: map<string, int>, grand: int)
    requires !IsAggregate(s) && |s| > 0 && s[0] in Classes && s in totals && s !in seen
    requires forall k :: k in seen ==> k in totals
    requires Accounts(sp, seen, totals, grand)
    ensures var p := Div(totals[s], grand);
      Accounts(AddTo(sp[s := p], Bucket(s[0]), p), seen + [s], totals, grand)
  {
    var c, p := s[0], Div(totals[s], grand);
    var sp' := AddTo(sp[s := p], Bucket(c), p);
    BucketKeys(c, c, s);
    ClassedBucketKeys(sp, seen, s, totals, grand);
    ClassedBucketValues(sp, seen, s, totals, grand);
    AccountsExactStep(sp, seen, s, totals, grand, sp');
  }

  /** After the step, every bucket of the map belongs to a class with a visited code. */
  lemma ClassedBucketKeys(sp: map<string, Value>, seen: seq<string>, s: string, totals: map<string, int>, grand: int)
    requires !IsAggregate(s) && |s| > 0 && s[0] in Classes && s in totals
    requires Accounts(sp, seen, totals, grand)
    ensures var p := Div(totals[s], grand);
      var sp' := AddTo(sp[s := p], Bucket(s[0]), p);
      forall k :: k in sp' && IsAggregate(k) ==>
        exists c :: c in Classes && k == Bucket(c) && HasMember(seen + [s], c)
  {
    var c, p := s[0], Div(totals[s], grand);
    var sp' := AddTo(sp[s := p], Bucket(c), p);
    HasMemberStep(seen, s, c);
    forall k | k in sp' && IsAggregate(k)
      ensures exists d :: d in Classes && k == Bucket(d) && HasMember(seen + [s], d)
    {
      if k != Bucket(c) {
        assert k in sp && !(k in seen && !IsAggregate(k));
        var d :| d in Classes && k == Bucket(d) && HasMember(seen, d);
        HasMemberStep(seen, s, d);
      }
    }
  }

  /** After the step, every class with a visited code has its bucket, at the class's share. */
  lemma ClassedBucketValues(sp: map<string, Value>, seen: seq<string>, s: string, totals: map<string, int>, grand: int)
    requires !IsAggregate(s) && |s| > 0 && s[0] in Classes && s in totals
    requires Accounts(sp, seen, totals, grand)
    ensures var p := Div(totals[s], grand);
      var sp' := AddTo(sp[s := p], Bucket(s[0]), p);
      forall d :: d in Classes && HasMember(seen + [s], d) ==>
        Bucket(d) in sp' && sp'[Bucket(d)] == Div(SumBy(seen + [s], KeyWeight(totals, InClass(d))), grand)
  {
    var c, p := s[0], Div(totals[s], grand);
    var sp' := AddTo(sp[s := p], Bucket(c), p);
    if !HasMember(seen, c) {
      BucketAbsent(sp, seen, totals, grand, c);
    }
    ClassedBucket(sp, seen, s, totals, grand);
    ClassedOthers(seen, s, totals);
  }

  /** The bucket of the visited code's class gains the code's share. */
  lemma ClassedBucket(sp: map<string, Value>, seen: seq<string>, s: string, totals: map<string, int>, grand: int)
    requires !IsAggregate(s) && |s| > 0 && s[0] in Classes && s in totals
    requires HasMember(seen, s[0]) ==>
      Bucket(s[0]) in sp && sp[Bucket(s[0])] == Div(SumBy(seen, KeyWeight(totals, InClass(s[0]))), grand)
    requires !HasMember(seen, s[0]) ==> Bucket(s[0]) !in sp
    ensures var p := Div(totals[s], grand);
      var sp' := AddTo(sp[s := p], Bucket(s[0]), p);
      Bucket(s[0]) in sp' &&
      sp'[Bucket(s[0])] == Div(SumBy(seen + [s], KeyWeight(totals, InClass(s[0]))), grand)
  {
    var t, c := totals[s], s[0];
    var p, b := Div(t, grand), Bucket(c);
    BucketKeys(c, c, s);
    var w := KeyWeight(totals, InClass(c));
    SumBySnoc(seen, s, w);
    assert w(s) == t;
    if HasMember(seen, c) {
      DivAdd(SumBy(seen, w), t, grand);
    } else {
      NoMemberNoWeight(seen, totals, c);
    }
  }

  /** A class none of whose codes has been visited has no bucket yet. */
  lemma BucketAbsent(sp: map<string, Value>, seen: seq<string>, totals: map<string, int>, grand: int, c: char)
    requires Accounts(sp, seen, totals, grand)
    requires !HasMember(seen, c)
    ensures Bucket(c) !in sp
  {
    forall d | d in Classes && HasMember(seen, d)
      ensures Bucket(c) != Bucket(d)
    {
      BucketKeys(c, d, "");
    }
  }

  /** The other classes' buckets and membership are unaffected by the visited code. */
  lemma ClassedOthers(seen: seq<string>, s: string, totals: map<string, int>)
    requires !IsAggregate(s) && |s| > 0 && s[0] in Classes
    ensures forall d :: d in Classes && d != s[0] ==>
      && Bucket(d) != Bucket(s[0]) && Bucket(d) != s
      && HasMember(seen + [s], d) == HasMember(seen, d)
      && SumBy(seen + [s], KeyWeight(totals, InClass(d))) == SumBy(seen, KeyWeight(totals, InClass(d)))
  {
    var c := s[0];
    forall d | d in Classes && d != c
      ensures Bucket(d) != Bucket(c) && Bucket(d) != s
      ensures HasMember(seen + [s], d) == HasMember(seen, d)
      ensures SumBy(seen + [s], KeyWeight(totals, InClass(d))) == SumBy(seen, KeyWeight(totals, InClass(d)))
    {
      BucketKeys(c, d, s);
      BucketKeys(d, d, s);
      HasMemberStep(seen, s, d);
      SumBySnoc(seen, s, KeyWeight(totals, InClass(d)));
    }
  }

  /** The key part of `RecordStep` for an exact code `s`. */
  lemma AccountsExactStep(sp: map<string, Value>, seen: seq<string>, s: string,
                          totals: map<string, int>, grand: int, sp': map<string, Value>)
    requires s in totals && !IsAggregate(s) && s !in seen
    requires forall k :: k in seen ==> k in totals
    requires Accounts(sp, seen, totals, grand)
    requires s in sp' && sp'[s] == Div(totals[s], grand)
    requires forall k :: k in sp' && k != s && !IsAggregate(k) ==> k in sp && sp'[k] == sp[k]
    requires forall k :: k in sp ==> k in sp'
    requires forall k :: k in sp' && IsAggregate(k) ==>
               exists c :: c in Classes && k == Bucket(c) && HasMember(seen + [s], c)
    requires forall c :: c in Classes && HasMember(seen + [s], c) ==>
               Bucket(c) in sp' && sp'[Bucket(c)] == Div(SumBy(seen + [s], KeyWeight(totals, InClass(c))), grand)
    ensures Accounts(sp', seen + [s], totals, grand)
  {
    forall k | k in sp'
      ensures (k in seen + [s] && !IsAggregate(k)) ||
              (exists c :: c in Classes && k == Bucket(c) && HasMember(seen + [s], c))
    {
      if !IsAggregate(k) && k != s {
        assert k in seen;
      }
    }
  }

  /** Reading per-key totals from a map that holds them sums the same samples. */
  lemma {:induction false} KeysWeight(codes: seq<Keyed<seq<int>>>, totals: map<string, int>, sel: Selector)
    requires forall i :: 0 <= i < |codes| ==>
               codes[i].key in totals && totals[codes[i].key] == Sum(codes[i].value)
    ensures SumBy(KeysOf(codes), KeyWeight(totals, sel)) == SelectedTotal(codes, sel)
  {
    if codes != [] {
      var n := |codes| - 1;
      var ks := KeysOf(codes);
      assert ks[..n] == KeysOf(codes[..n]);
      KeysWeight(codes[..n], totals, sel);
    }
  }

  /** Once every key has been visited, `Accounts` pins the map down to `Proportions`. */
  lemma AccountsIsProportions(codes: GoMap<seq<int>>, order: seq<string>, sp: map<string, Value>)
    requires IsIterationOrder(order, Totals(codes).Keys)
    requires Accounts(sp, order, Totals(codes), GrandTotal(codes))
    ensures sp == Proportions(codes)
  {
    OrderCoversKeys(codes, order);
    var r := Proportions(codes);
    AccountsKeys(codes, order, sp);
    forall k | k in sp
      ensures sp[k] == r[k]
    {
      if IsAggregate(k) {
        var c :| c in Classes && k == Bucket(c) && HasMember(order, c);
      }
    }
  }

  /** A full visit of `statusTotal` sees the same keys, and the same class sums, as the response. */
  lemma OrderCoversKeys(codes: GoMap<seq<int>>, order: seq<string>)
    requires IsIterationOrder(order, Totals(codes).Keys)
    ensures forall k :: k in order <==> k in KeysOf(codes)
    ensures forall c :: c in Classes ==>
      && (HasMember(order, c) <==> HasMember(KeysOf(codes), c))
      && SumBy(order, KeyWeight(Totals(codes), InClass(c))) == SelectedTotal(codes, InClass(c))
  {
    var totals, keys := Totals(codes), KeysOf(codes);
    TotalsShape(codes);
    assert forall k :: k in order <==> k in keys;
    KeysOfDistinct(codes);
    SameKeysPermutation(order, keys);
    forall c | c in Classes
      ensures HasMember(order, c) <==> HasMember(keys, c)
      ensures SumBy(order, KeyWeight(totals, InClass(c))) == SelectedTotal(codes, InClass(c))
    {
      SumByPermutation(order, keys, KeyWeight(totals, InClass(c)));
      KeysWeight(codes, totals, InClass(c));
    }
  }

  /** After a full visit, the keys of the result are those of `Proportions`. */
  lemma AccountsKeys(codes: GoMap<seq<int>>, order: seq<string>, sp: map<string, Value>)
    requires Accounts(sp, order, Totals(codes), GrandTotal(codes))
    requires forall k :: k in order <==> k in KeysOf(codes)
    requires forall c :: c in Classes ==> (HasMember(order, c) <==> HasMember(KeysOf(codes), c))
    ensures sp.Keys == Proportions(codes).Keys
  {
    var keys := KeysOf(codes);
    var r := Proportions(codes);
    forall k | k in sp
      ensures k in r
    {
      if !IsAggregate(k) {
        assert k in ExactCodes(codes);
      } else {
        var c :| c in Classes && k == Bucket(c) && HasMember(order, c);
        assert k in Buckets(codes);
      }
    }
    forall k | k in r
      ensures k in sp
    {
      if k in ExactCodes(codes) {
        assert k in order;
      } else {
        var c :| c in Classes && HasMember(keys, c) && k == Bucket(c);
      }
    }
  }

  // ---------------------------------------------------------------------
  // Properties of the status-code proportions
  // ---------------------------------------------------------------------

  /** Every sample of every key is non-negative. */
  predicate AllNonNegative(codes: seq<Keyed<seq<int>>>)
  {
    forall i :: 0 <= i < |codes| ==> NonNegative(codes[i].value)
  }

  /** The keys that `sel` selects, in the order given. */
  function Members(keys: seq<string>, sel: Selector): seq<string>
  {
    if keys == [] then []
    else Members(keys[..|keys| - 1], sel) + (if Selects(sel, keys[|keys| - 1]) then [keys[|keys| - 1]] else [])
  }

  /** The float64 sum of the values that `r` holds for `ks` (a missing key reads as zero). */
  function SharesOf(r: map<string, Value>, ks: seq<string>): Value
  {
    if ks == [] then Finite(0.0)
    else Add(SharesOf(r, ks[..|ks| - 1]), if ks[|ks| - 1] in r then r[ks[|ks| - 1]] else Finite(0.0))
  }

  lemma SharesOfSnoc(r: map<string, Value>, ks: seq<string>, k: string)
    ensures SharesOf(r, ks + [k]) == Add(SharesOf(r, ks), if k in r then r[k] else Finite(0.0))
  {
    assert (ks + [k])[..|ks|] == ks;
  }

  lemma {:induction false} MembersNonEmpty(keys: seq<string>, sel: Selector)
    ensures |Members(keys, sel)| > 0 <==> exists k :: k in keys && Selects(sel, k)
  {
    if keys != [] {
      var n := |keys| - 1;
      MembersNonEmpty(keys[..n], sel);
      assert keys == keys[..n] + [keys[n]];
      if exists k :: k in keys && Selects(sel, k) {
        var k :| k in keys && Selects(sel, k);
        assert k in keys[..n] || k == keys[n];
      }
    }
  }

  lemma MembersSnoc(keys: seq<string>, k: string, sel: Selector)
    ensures Members(keys + [k], sel) == Members(keys, sel) + (if Selects(sel, k) then [k] else [])
  {
    assert (keys + [k])[..|keys|] == keys;
  }

  lemma KeysOfSnoc<V>(es: seq<Keyed<V>>)
    requires es != []
    ensures KeysOf(es) == KeysOf(es[..|es| - 1]) + [es[|es| - 1].key]
  {
  }

  /** The selected entries all have their share in `r`, over the denominator `g`. */
  ghost predicate SharesHeld(codes: seq<Keyed<seq<int>>>, r: map<string, Value>, sel: Selector, g: int)
  {
    forall i :: 0 <= i < |codes| && Selects(sel, codes[i].key) ==>
      codes[i].key in r && r[codes[i].key] == Div(Sum(codes[i].value), g)
  }

  /**
   * Adding up the shares that `r` holds for the selected keys adds up their
   * totals over the same denominator.
   */
  lemma {:induction false} SharesAddUp(codes: seq<Keyed<seq<int>>>, r: map<string, Value>, sel: Selector, g: int)
    requires SharesHeld(codes, r, sel, g)
    requires g != 0
    ensures SharesOf(r, Members(KeysOf(codes), sel)) == Div(SelectedTotal(codes, sel), g)
  {
    if codes != [] {
      var n := |codes| - 1;
      assert SharesHeld(codes[..n], r, sel, g);
      SharesAddUp(codes[..n], r, sel, g);
      SharesAddUpStep(codes, r, sel, g);
    }
  }

  /** The inductive step of `SharesAddUp`: one more entry at the end. */
  lemma SharesAddUpStep(codes: seq<Keyed<seq<int>>>, r: map<string, Value>, sel: Selector, g: int)
    requires codes != [] && g != 0
    requires var e := codes[|codes| - 1];
      Selects(sel, e.key) ==> e.key in r && r[e.key] == Div(Sum(e.value), g)
    requires SharesOf(r, Members(KeysOf(codes[..|codes| - 1]), sel)) ==
             Div(SelectedTotal(codes[..|codes| - 1], sel), g)
    ensures SharesOf(r, Members(KeysOf(codes), sel)) == Div(SelectedTotal(codes, sel), g)
  {
    var n := |codes| - 1;
    var e, ks := codes[n], KeysOf(codes[..n]);
    var prior, before := Members(ks, sel), SelectedTotal(codes[..n], sel);
    KeysOfSnoc(codes);
    MembersSnoc(ks, e.key, sel);
    SelectedSnoc(codes, sel);
    var full := KeysOf(codes);
    assert full == ks + [e.key];
    if Selects(sel, e.key) {
      assert Members(full, sel) == prior + [e.key];
      SharesStep(r, prior, e.key, before, Sum(e.value), g);
    } else {
      assert Members(full, sel) == prior;
    }
  }

  /** The selected total of a response is that of all but its last entry, plus the last entry's weight. */
  lemma SelectedSnoc(codes: seq<Keyed<seq<int>>>, sel: Selector)
    requires codes != []
    ensures SelectedTotal(codes, sel) == SelectedTotal(codes[..|codes| - 1], sel)
      + (if Selects(sel, codes[|codes| - 1].key) then Sum(codes[|codes| - 1].value) else 0)
  {
  }

  lemma SharesStep(r: map<string, Value>, prior: seq<string>, k: string, total: int, t: int, g: int)
    requires SharesOf(r, prior) == Div(total, g)
    requires k in r && r[k] == Div(t, g)
    ensures SharesOf(r, prior + [k]) == Div(total + t, g)
  {
    SharesOfSnoc(r, prior, k);
    DivAdd(total, t, g);
  }

  /** Over a zero denominator the shares of a non-empty selection add up to a non-finite value. */
  lemma {:induction false} SharesNonFinite(codes: seq<Keyed<seq<int>>>, r: map<string, Value>, sel: Selector)
    requires SharesHeld(codes, r, sel, 0)
    requires |Members(KeysOf(codes), sel)| > 0
    ensures SharesOf(r, Members(KeysOf(codes), sel)) == NonFinite
  {
    var n := |codes| - 1;
    var e, ks := codes[n], KeysOf(codes[..n]);
    KeysOfSnoc(codes);
    MembersSnoc(ks, e.key, sel);
    var prior := Members(ks, sel);
    if Selects(sel, e.key) {
      assert r[e.key] == NonFinite;
      SharesOfSnoc(r, prior, e.key);
    } else {
      assert Members(KeysOf(codes), sel) == prior;
      SharesNonFinite(codes[..n], r, sel);
    }
  }

  /**
   * The keys of the result: every exact code of the response, with its share
   * of the grand total, and besides those only the four class tokens. A
   * class-token key of the response is never copied through.
   */
  lemma StatusKeys(codes: GoMap<seq<int>>)
    ensures forall i :: 0 <= i < |codes| && !IsAggregate(codes[i].key) ==>
      codes[i].key in Proportions(codes) &&
      Proportions(codes)[codes[i].key] == Div(Sum(codes[i].value), GrandTotal(codes))
    ensures forall k :: k in Proportions(codes) && !IsAggregate(k) ==> k in KeysOf(codes)
    ensures forall k :: k in Proportions(codes) && IsAggregate(k) ==>
      exists c :: c in Classes && k == Bucket(c)
  {
    TotalsShape(codes);
    forall i | 0 <= i < |codes| && !IsAggregate(codes[i].key)
      ensures codes[i].key in ExactCodes(codes)
    {
      assert KeysOf(codes)[i] == codes[i].key;
    }
  }

  /**
   * The bucket of class `c` is present exactly when some exact code starts
   * with `c`, and holds the share of all those codes together. Exact codes
   * whose first character is outside 2-5 are in no bucket.
   */
  lemma StatusBuckets(codes: GoMap<seq<int>>, c: char)
    requires c in Classes
    ensures Bucket(c) in Proportions(codes) <==> HasMember(KeysOf(codes), c)
    ensures Bucket(c) in Proportions(codes) ==>
      Proportions(codes)[Bucket(c)] == Div(SelectedTotal(codes, InClass(c)), GrandTotal(codes))
  {
    TotalsShape(codes);
    forall d | d in Classes && Bucket(c) == Bucket(d)
      ensures d == c
    {
      BucketKeys(c, d, "");
    }
  }

  /** An exact code with no class leaves every bucket as it was. */
  lemma UnclassedInNoBucket(codes: seq<Keyed<seq<int>>>, e: Keyed<seq<int>>, c: char)
    requires !IsAggregate(e.key) && !(|e.key| > 0 && e.key[0] in Classes)
    requires c in Classes
    ensures SelectedTotal(codes + [e], InClass(c)) == SelectedTotal(codes, InClass(c))
    ensures SelectedTotal(codes + [e], AllExact) == SelectedTotal(codes, AllExact) + Sum(e.value)
  {
    SumBySnoc(codes, e, Weight(InClass(c)));
    SumBySnoc(codes, e, Weight(AllExact));
  }

  /**
   * Each class bucket equals the sum of the shares of the exact codes that
   * start with its digit.
   */
  lemma BucketIsSumOfShares(codes: GoMap<seq<int>>, c: char)
    requires c in Classes
    requires Bucket(c) in Proportions(codes)
    ensures Proportions(codes)[Bucket(c)] ==
      SharesOf(Proportions(codes), Members(KeysOf(codes), InClass(c)))
  {
    var r, g := Proportions(codes), GrandTotal(codes);
    StatusKeys(codes);
    StatusBuckets(codes, c);
    assert SharesHeld(codes, r, InClass(c), g);
    MembersNonEmpty(KeysOf(codes), InClass(c));
    if g != 0 {
      SharesAddUp(codes, r, InClass(c), g);
    } else {
      SharesNonFinite(codes, r, InClass(c));
    }
  }

  /**
   * The shares of all exact codes add up to the exact codes' part of the
   * grand total; the grand total also counts the class-token keys of the
   * response, so they add up to 1 only when those carry no samples.
   */
  lemma ExactSharesTotal(codes: GoMap<seq<int>>)
    requires GrandTotal(codes) != 0
    ensures SharesOf(Proportions(codes), Members(KeysOf(codes), AllExact)) ==
      Div(GrandTotal(codes) - AggregateTotal(codes), GrandTotal(codes))
    ensures AggregateTotal(codes) == 0 ==>
      SharesOf(Proportions(codes), Members(KeysOf(codes), AllExact)) == Finite(1.0)
  {
    var g, r := GrandTotal(codes), Proportions(codes);
    StatusKeys(codes);
    assert SharesHeld(codes, r, AllExact, g);
    SharesAddUp(codes, r, AllExact, g);
    ExactPlusAggregate(codes);
    var exact := SelectedTotal(codes, AllExact);
    assert SharesOf(r, Members(KeysOf(codes), AllExact)) == Div(exact, g);
    assert exact == g - AggregateTotal(codes);
    DivSelf(g);
  }

  /** The grand total splits into the exact codes' part and the class tokens' part. */
  lemma ExactPlusAggregate(codes: seq<Keyed<seq<int>>>)
    ensures SelectedTotal(codes, AllExact) + AggregateTotal(codes) == GrandTotal(codes)
  {
    forall i | 0 <= i < |codes|
      ensures EntryTotal(codes[i]) == Weight(AllExact)(codes[i]) + AggregateWeight(codes[i])
    {
    }
    SumBySplit(codes, Weight(AllExact), AggregateWeight, EntryTotal);
  }

  /** With non-negative counts and a positive grand total every proportion is a fraction. */
  lemma ShareBounds(codes: GoMap<seq<int>>)
    requires AllNonNegative(codes) && GrandTotal(codes) > 0
    ensures forall k :: k in Proportions(codes) ==>
      Proportions(codes)[k].Finite? && 0.0 <= Proportions(codes)[k].x <= 1.0
  {
    var r, g := Proportions(codes), GrandTotal(codes);
    forall i | 0 <= i < |codes|
      ensures 0 <= EntryTotal(codes[i])
    {
      SumNonNegative(codes[i].value);
    }
    StatusKeys(codes);
    forall k | k in r
      ensures r[k].Finite? && 0.0 <= r[k].x <= 1.0
    {
      if IsAggregate(k) {
        var c :| c in Classes && k == Bucket(c);
        StatusBuckets(codes, c);
        var w := Weight(InClass(c));
        SumByMonotone(codes, w, EntryTotal);
        SumByNonNegative(codes, w);
        DivFraction(SelectedTotal(codes, InClass(c)), g);
      } else {
        var i :| 0 <= i < |codes| && codes[i].key == k;
        SumByBound(codes, EntryTotal, i);
        DivFraction(Sum(codes[i].value), g);
      }
    }
  }

  /**
   * A class token in the response counts toward the denominator but is not
   * reported: with 10 samples of 200, 5 of 404 and 3 of the token "5xx",
   * the shares are out of 18 and no "5xx" bucket is produced.
   */
  lemma StatusScenario()
    ensures var codes: GoMap<seq<int>> := [Keyed("200", [10]), Keyed("404", [5]), Keyed("5xx", [3])];
      var r := Proportions(codes);
      && r.Keys == {"200", "404", "2xx", "4xx"}
      && r["200"] == Div(10, 18) && r["2xx"] == Div(10, 18)
      && r["404"] == Div(5, 18) && r["4xx"] == Div(5, 18)
  {
    var codes: GoMap<seq<int>> := [Keyed("200", [10]), Keyed("404", [5]), Keyed("5xx", [3])];
    ScenarioKeys(codes);
    ScenarioValues(codes);
  }

  /** The keys of the concrete response of `StatusScenario`. */
  lemma ScenarioKeys(codes: GoMap<seq<int>>)
    requires codes == [Keyed("200", [10]), Keyed("404", [5]), Keyed("5xx", [3])]
    ensures Proportions(codes).Keys == {"200", "404", "2xx", "4xx"}
  {
    assert KeysOf(codes) == ["200", "404", "5xx"];
    ScenarioBuckets(KeysOf(codes));
    assert ExactCodes(codes) == {"200", "404"};
  }

  /** The values of the concrete response of `StatusScenario`. */
  lemma ScenarioValues(codes: GoMap<seq<int>>)
    requires codes == [Keyed("200", [10]), Keyed("404", [5]), Keyed("5xx", [3])]
    requires Proportions(codes).Keys == {"200", "404", "2xx", "4xx"}
    ensures Proportions(codes)["200"] == Div(10, 18) && Proportions(codes)["2xx"] == Div(10, 18)
    ensures Proportions(codes)["404"] == Div(5, 18) && Proportions(codes)["4xx"] == Div(5, 18)
  {
    ScenarioTotals(codes);
    StatusKeys(codes);
    StatusBuckets(codes, '2');
    StatusBuckets(codes, '4');
    assert Bucket('2') == "2xx" && Bucket('4') == "4xx";
  }

  /** The sums over the concrete response of `StatusScenario`, written out entry by entry. */
  lemma ScenarioTotals(codes: seq<Keyed<seq<int>>>)
    requires codes == [Keyed("200", [10]), Keyed("404", [5]), Keyed("5xx", [3])]
    ensures KeysOf(codes) == ["200", "404", "5xx"]
    ensures Sum(codes[0].value) == 10 && Sum(codes[1].value) == 5
    ensures GrandTotal(codes) == 18
    ensures SelectedTotal(codes, InClass('2')) == 10
    ensures SelectedTotal(codes, InClass('4')) == 5
  {
    var a, b, x := codes[0], codes[1], codes[2];
    assert [10][..0] == [] && [5][..0] == [] && [3][..0] == [];
    assert codes == [a] + [b] + [x] && [a] + [b] == [a, b];
    assert IsAggregate(x.key) && !IsAggregate(a.key) && !IsAggregate(b.key);
    assert StartsWith(a.key, '2') && StartsWith(b.key, '4');
    forall f: Keyed<seq<int>> -> int
      ensures SumBy(codes, f) == f(a) + f(b) + f(x)
    {
      SumBySingle(a, f);
      SumBySnoc([a], b, f);
      SumBySnoc([a, b], x, f);
    }
  }

  /** Only classes 2 and 4 have an exact code in the concrete response. */
  lemma ScenarioBuckets(ks: seq<string>)
    requires ks == ["200", "404", "5xx"]
    ensures (set c | c in Classes && HasMember(ks, c) :: Bucket(c)) == {"2xx", "4xx"}
  {
    assert Selects(InClass('2'), ks[0]) && Selects(InClass('4'), ks[1]);
    forall k | k in ks
      ensures !Selects(InClass('3'), k) && !Selects(InClass('5'), k)
    {
    }
    assert Bucket('2') == "2xx" && Bucket('4') == "4xx";
  }

  /** The result does not depend on the order in which the response's keys are visited. */
  lemma ProportionsAnyOrder(codes: GoMap<seq<int>>, other: GoMap<seq<int>>)
    requires multiset(codes) == multiset(other)
    ensures Proportions(codes) == Proportions(other)
  {
    SameTotals(codes, other);
    SumByPermutation(codes, other, EntryTotal);
    forall c | c in Classes
      ensures SelectedTotal(codes, InClass(c)) == SelectedTotal(other, InClass(c))
    {
      SumByPermutation(codes, other, Weight(InClass(c)));
    }
    ProportionsFromParts(codes, other);
  }

  /** Reordering the entries changes neither the key set nor any per-key total. */
  lemma SameTotals(codes: GoMap<seq<int>>, other: GoMap<seq<int>>)
    requires multiset(codes) == multiset(other)
    ensures forall k :: k in KeysOf(codes) <==> k in KeysOf(other)
    ensures Totals(codes) == Totals(other)
  {
    SameEntries(codes, other);
    SameEntries(other, codes);
    TotalsAgree(codes, other);
  }

  /** Two responses whose every entry has its total in the other's totals have the same totals. */
  lemma TotalsAgree(codes: GoMap<seq<int>>, other: GoMap<seq<int>>)
    requires forall i :: 0 <= i < |codes| ==>
      codes[i].key in Totals(other) && Totals(other)[codes[i].key] == Sum(codes[i].value)
    requires forall i :: 0 <= i < |other| ==> other[i].key in KeysOf(codes)
    ensures Totals(codes) == Totals(other)
  {
    TotalsInto(codes, other);
    KeysInto(other, codes);
    MapsEqual(Totals(codes), Totals(other));
  }

  /** Every total of one response agrees with the other's total for that key. */
  lemma TotalsInto(codes: GoMap<seq<int>>, other: GoMap<seq<int>>)
    requires forall i :: 0 <= i < |codes| ==>
      codes[i].key in Totals(other) && Totals(other)[codes[i].key] == Sum(codes[i].value)
    ensures forall k :: k in Totals(codes) ==> k in Totals(other) && Totals(codes)[k] == Totals(other)[k]
  {
    TotalsShape(codes);
    forall k | k in Totals(codes)
      ensures k in Totals(other) && Totals(codes)[k] == Totals(other)[k]
    {
      var i :| 0 <= i < |codes| && KeysOf(codes)[i] == k;
    }
  }

  /** Every key of `other`'s totals is a key of `codes`' totals. */
  lemma KeysInto(other: GoMap<seq<int>>, codes: GoMap<seq<int>>)
    requires forall i :: 0 <= i < |other| ==> other[i].key in KeysOf(codes)
    ensures forall k :: k in Totals(other) ==> k in Totals(codes)
  {
    TotalsKeys(codes);
    TotalsKeys(other);
    forall k | k in Totals(other)
      ensures k in Totals(codes)
    {
      var j :| 0 <= j < |other| && KeysOf(other)[j] == k;
    }
  }

  /** Two maps with the same keys and the same value at each key are equal. */
  lemma MapsEqual<V>(a: map<string, V>, b: map<string, V>)
    requires forall k :: k in a ==> k in b && a[k] == b[k]
    requires forall k :: k in b ==> k in a
    ensures a == b
  {
  }

  /** `Proportions` depends only on the key set and the totals. */
  lemma ProportionsFromParts(codes: GoMap<seq<int>>, other: GoMap<seq<int>>)
    requires forall k :: k in KeysOf(codes) <==> k in KeysOf(other)
    requires Totals(codes) == Totals(other)
    requires GrandTotal(codes) == GrandTotal(other)
    requires forall c :: c in Classes ==> SelectedTotal(codes, InClass(c)) == SelectedTotal(other, InClass(c))
    ensures Proportions(codes) == Proportions(other)
  {
    SameKeySets(codes, other);
    var r, r' := Proportions(codes), Proportions(other);
    assert r.Keys == r'.Keys;
    forall k | k in r
      ensures r[k] == r'[k]
    {
      if IsAggregate(k) {
        var c :| c in Classes && HasMember(KeysOf(codes), c) && k == Bucket(c);
        assert k[0] == c;
      }
    }
  }

  /** Responses with the same keys have the same exact codes and the same buckets. */
  lemma SameKeySets(codes: GoMap<seq<int>>, other: GoMap<seq<int>>)
    requires forall k :: k in KeysOf(codes) <==> k in KeysOf(other)
    ensures ExactCodes(codes) == ExactCodes(other)
    ensures Buckets(codes) == Buckets(other)
  {
    forall c | c in Classes
      ensures HasMember(KeysOf(codes), c) == HasMember(KeysOf(other), c)
    {
    }
  }

  /** Every key of one ordering is a key of the other, with the same total. */
  lemma SameEntries(codes: GoMap<seq<int>>, other: GoMap<seq<int>>)
    requires multiset(codes) == multiset(other)
    ensures forall i :: 0 <= i < |codes| ==>
      codes[i].key in KeysOf(other) && codes[i].key in Totals(other) &&
      Totals(other)[codes[i].key] == Sum(codes[i].value)
  {
    TotalsShape(other);
    forall i | 0 <= i < |codes|
      ensures codes[i].key in KeysOf(other) && codes[i].key in Totals(other) &&
              Totals(other)[codes[i].key] == Sum(codes[i].value)
    {
      assert codes[i] in multiset(other);
      var j :| 0 <= j < |other| && other[j] == codes[i];
      assert KeysOf(other)[j] == codes[i].key;
    }
  }
}
