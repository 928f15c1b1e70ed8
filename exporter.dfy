/**
 * The exporter's metric source: the fixed metric schema and, on every
 * scrape, one pass over the domain list that emits each domain's bandwidth,
 * hit rate, byte-hit rate and status-code proportions as labelled gauge
 * samples. The metric channel is a sequence the samples are appended to.
 */
module Exporter {
  import opened Sums
  import opened Floats
  import opened GoMaps
  import opened Retrieve

  const CdnNameSpace: string := "qiniu"

  /** Access key and secret key; only the provider's request signing uses them. */
  datatype Credentials = Credentials(accessKey: string, secretKey: string)

  /** A metric descriptor: fully-qualified name, help text, variable label names. */
  datatype Desc = Desc(fqName: string, help: string, variableLabels: seq<string>)

  /** A gauge sample sent on the metric channel. */
  datatype Sample = Sample(desc: Desc, value: Value, labelValues: seq<string>)

  /** The exporter's configuration and its four descriptors; never changed after construction. */
  datatype CdnExporter = CdnExporter(
    domainList: seq<string>,
    credential: Credentials,
    rangeTime: int,
    delayTime: int,
    granularity: string,
    cdnHitRate: Desc,
    cdnFluxHitRate: Desc,
    cdnBandWidth: Desc,
    cdnStatusRate: Desc)

  /**
   * The name `prometheus.BuildFQName(namespace, "cdn", name)` builds for a
   * non-empty metric name (BuildFQName gives "" for an empty one; the exporter
   * only passes four non-empty literals).
   */
  function CdnName(name: string): string
  {
    CdnNameSpace + "_cdn_" + name
  }

  /** A fully-qualified name is "qiniu_cdn_" followed by the metric's own name, which it determines. */
  lemma CdnNameSplit(name: string)
    ensures |CdnName(name)| == 10 + |name|
    ensures CdnName(name)[..10] == "qiniu_cdn_" && CdnName(name)[10..] == name
  {
    assert CdnNameSpace + "_cdn_" == "qiniu_cdn_";
  }

  const HitRateDesc: Desc := Desc(CdnName("hit_rate"), "cdn请求命中率(%)", ["instanceId"])
  const FluxHitRateDesc: Desc := Desc(CdnName("flux_hit_rate"), "cdn字节命中率(%)", ["instanceId"])
  const BandWidthDesc: Desc := Desc(CdnName("bandwidth"), "cdn总带宽(Mbps)", ["instanceId"])
  const StatusRateDesc: Desc := Desc(CdnName("status_rate"), "cdn状态码概率(%)", ["instanceId", "status"])

  /** The configuration is kept as given, and the four descriptors are the fixed ones. */
  function NewCdnExporter(domainList: seq<string>, credential: Credentials, rangeTime: int,
                          delayTime: int, granularity: string): (e: CdnExporter)
    ensures e.domainList == domainList && e.credential == credential
    ensures e.rangeTime == rangeTime && e.delayTime == delayTime && e.granularity == granularity
    ensures e.cdnHitRate == HitRateDesc && e.cdnFluxHitRate == FluxHitRateDesc
    ensures e.cdnBandWidth == BandWidthDesc && e.cdnStatusRate == StatusRateDesc
  {
    CdnExporter(domainList, credential, rangeTime, delayTime, granularity,
                HitRateDesc, FluxHitRateDesc, BandWidthDesc, StatusRateDesc)
  }

  /** The descriptors sent by `Describe`, in the order it sends them. */
  function Describe(e: CdnExporter): (ch: seq<Desc>)
    ensures |ch| == 4
    ensures ch[0] == e.cdnHitRate && ch[1] == e.cdnFluxHitRate
    ensures ch[2] == e.cdnBandWidth && ch[3] == e.cdnStatusRate
  {
    [e.cdnHitRate, e.cdnFluxHitRate, e.cdnBandWidth, e.cdnStatusRate]
  }

  /** The four metric names, written out. */
  lemma MetricNames()
    ensures HitRateDesc.fqName == "qiniu_cdn_hit_rate"
    ensures FluxHitRateDesc.fqName == "qiniu_cdn_flux_hit_rate"
    ensures BandWidthDesc.fqName == "qiniu_cdn_bandwidth"
    ensures StatusRateDesc.fqName == "qiniu_cdn_status_rate"
  {
    assert CdnNameSpace + "_cdn_" == "qiniu_cdn_";
  }

  /** A freshly built exporter describes four distinct metrics, in a fixed order. */
  lemma DescribeFixed(domainList: seq<string>, credential: Credentials, rangeTime: int,
                      delayTime: int, granularity: string)
    ensures var ch := Describe(NewCdnExporter(domainList, credential, rangeTime, delayTime, granularity));
      && ch == [HitRateDesc, FluxHitRateDesc, BandWidthDesc, StatusRateDesc]
      && (forall i, j :: 0 <= i < j < 4 ==> ch[i].fqName != ch[j].fqName)
      && ch[3].variableLabels == ["instanceId", "status"]
      && (forall i :: 0 <= i < 3 ==> ch[i].variableLabels == ["instanceId"])
  {
    MetricNames();
    var ch := Describe(NewCdnExporter(domainList, credential, rangeTime, delayTime, granularity));
    assert |ch[0].fqName| == 18 && |ch[1].fqName| == 23;
    assert |ch[2].fqName| == 19 && |ch[3].fqName| == 21;
  }

  // ---------------------------------------------------------------------
  // One scrape
  // ---------------------------------------------------------------------

  /** What the three reducers return for one domain. */
  datatype DomainMetrics = DomainMetrics(
    bandWidth: Value, hitRate: Value, fluxHitRate: Value, statusProportion: map<string, Value>)

  /** The reducers' results for `domain`, with the exporter's window settings and clock reading `now`. */
  function Retrieved(e: CdnExporter, provider: Provider, now: int, domain: string): DomainMetrics
  {
    var bandwidthQuery := BandwidthQueryFor(domain, e.rangeTime, e.delayTime, e.granularity, now);
    var logQuery := LogQueryFor(domain, e.rangeTime, e.delayTime, e.granularity, now);
    var hitMiss := provider.hitMiss(logQuery);
    DomainMetrics(
      BandwidthAverage(provider.bandwidth(bandwidthQuery)),
      HitRatio(hitMiss.hit, hitMiss.miss),
      HitRatio(hitMiss.trafficHit, hitMiss.trafficMiss),
      Proportions(provider.statusCode(logQuery)))
  }

  /** The bandwidth gauge, converted to Mbps by two divisions by 1024. */
  function BandWidthSample(e: CdnExporter, domain: string, m: DomainMetrics): Sample
  {
    Sample(e.cdnBandWidth, Over(Over(m.bandWidth, 1024.0), 1024.0), [domain])
  }

  /** The request hit rate gauge, in percent. */
  function HitRateSample(e: CdnExporter, domain: string, m: DomainMetrics): Sample
  {
    Sample(e.cdnHitRate, Times(m.hitRate, 100.0), [domain])
  }

  /** The byte hit rate gauge, in percent. */
  function FluxHitRateSample(e: CdnExporter, domain: string, m: DomainMetrics): Sample
  {
    Sample(e.cdnFluxHitRate, Times(m.fluxHitRate, 100.0), [domain])
  }

  /** The status-rate gauge of one status key, in percent, labelled with the domain and the key. */
  function StatusSample(e: CdnExporter, domain: string, status: string, proportion: Value): Sample
  {
    Sample(e.cdnStatusRate, Times(proportion, 100.0), [domain, status])
  }

  /** The status samples of one domain, for the keys in `order`. */
  function StatusSamples(e: CdnExporter, domain: string, sp: map<string, Value>, order: seq<string>): seq<Sample>
    requires forall k :: k in order ==> k in sp
  {
    if order == [] then []
    else
      var n := |order| - 1;
      StatusSamples(e, domain, sp, order[..n]) + [StatusSample(e, domain, order[n], sp[order[n]])]
  }

  /** The samples of one domain, its status map visited in `order`. */
  function DomainSamples(e: CdnExporter, domain: string, m: DomainMetrics, order: seq<string>): seq<Sample>
    requires forall k :: k in order ==> k in m.statusProportion
  {
    [BandWidthSample(e, domain, m), HitRateSample(e, domain, m), FluxHitRateSample(e, domain, m)]
      + StatusSamples(e, domain, m.statusProportion, order)
  }

  /** The reducers' results for every domain of the list, in list order. */
  ghost function Scrape(e: CdnExporter, provider: Provider, now: int, domains: seq<string>): (ms: seq<DomainMetrics>)
    ensures |ms| == |domains|
    ensures forall i :: 0 <= i < |domains| ==> ms[i] == Retrieved(e, provider, now, domains[i])
  {
    seq(|domains|, i requires 0 <= i < |domains| => Retrieved(e, provider, now, domains[i]))
  }

  /** `orders[i]` is an order in which Go may visit the status map of `ms[i]`. */
  predicate OrdersFit(ms: seq<DomainMetrics>, orders: seq<seq<string>>)
  {
    && |orders| == |ms|
    && forall i :: 0 <= i < |ms| ==> IsIterationOrder(orders[i], ms[i].statusProportion.Keys)
  }

  /**
   * Every sample of a scrape: the block of `domains[i]` with metrics `ms[i]`,
   * its status map visited in `orders[i]`, for each i in turn.
   */
  function Emitted(e: CdnExporter, domains: seq<string>, ms: seq<DomainMetrics>, orders: seq<seq<string>>): seq<Sample>
    requires |domains| == |ms| && OrdersFit(ms, orders)
  {
    if domains == [] then []
    else
      var n := |domains| - 1;
      Emitted(e, domains[..n], ms[..n], orders[..n]) + DomainSamples(e, domains[n], ms[n], orders[n])
  }

  /** Visiting one more status key appends its sample. */
  lemma StatusSamplesStep(e: CdnExporter, domain: string, sp: map<string, Value>, order: seq<string>, j: nat)
    requires j < |order|
    requires forall k :: k in order ==> k in sp
    ensures StatusSamples(e, domain, sp, order[..j + 1])
         == StatusSamples(e, domain, sp, order[..j]) + [StatusSample(e, domain, order[j], sp[order[j]])]
  {
    assert order[..j + 1][..j] == order[..j];
  }

  /**
   * The inner loop of a scrape: one sample per entry of the status map,
   * labelled with the domain and the status key, in Go's iteration order.
   */
  method SendStatusRates(e: CdnExporter, domain: string, statusProportion: map<string, Value>, ch: seq<Sample>)
    returns (ch': seq<Sample>, order: seq<string>)
    ensures IsIterationOrder(order, statusProportion.Keys)
    ensures ch' == ch + StatusSamples(e, domain, statusProportion, order)
  {
    order := IterationOrder(statusProportion);
    ch' := ch;
    for j := 0 to |order|
      invariant ch' == ch + StatusSamples(e, domain, statusProportion, order[..j])
    {
      var status := order[j];
      StatusSamplesStep(e, domain, statusProportion, order, j);
      ch' := ch' + [Sample(e.cdnStatusRate, Times(statusProportion[status], 100.0), [domain, status])];
    }
    assert order[..|order|] == order;
  }

  /** Handling one more domain appends its block of samples. */
  lemma EmittedStep(e: CdnExporter, domains: seq<string>, ms: seq<DomainMetrics>,
                    orders: seq<seq<string>>, i: nat, order: seq<string>)
    requires |domains| == |ms| && i < |domains|
    requires OrdersFit(ms[..i], orders)
    requires IsIterationOrder(order, ms[i].statusProportion.Keys)
    ensures OrdersFit(ms[..i + 1], orders + [order])
    ensures Emitted(e, domains[..i + 1], ms[..i + 1], orders + [order])
         == Emitted(e, domains[..i], ms[..i], orders) + DomainSamples(e, domains[i], ms[i], order)
  {
    assert domains[..i + 1][..i] == domains[..i];
    assert ms[..i + 1][..i] == ms[..i];
    assert (orders + [order])[..i] == orders;
  }

  /**
   * The body of the scrape loop for one domain: the three reducers run,
   * then the bandwidth (in Mbps), the two hit rates and the status-code
   * proportions (as percentages) are sent.
   */
  method CollectDomain(e: CdnExporter, provider: Provider, now: int, domain: string, ch: seq<Sample>)
    returns (ch': seq<Sample>, ghost order: seq<string>)
    ensures IsIterationOrder(order, Retrieved(e, provider, now, domain).statusProportion.Keys)
    ensures ch' == ch + DomainSamples(e, domain, Retrieved(e, provider, now, domain), order)
  {
    var bandWidth := GetBandWidth(provider, domain, e.rangeTime, e.delayTime, e.granularity, now);
    var hitRate, fluxHitRate := GetHitMiss(provider, domain, e.rangeTime, e.delayTime, e.granularity, now);
    var statusProportion := GetStatusCode(provider, domain, e.rangeTime, e.delayTime, e.granularity, now);
    ghost var m := Retrieved(e, provider, now, domain);
    assert m.bandWidth == bandWidth && m.hitRate == hitRate && m.fluxHitRate == fluxHitRate;
    assert m.statusProportion == statusProportion;

    ch' := ch + [Sample(e.cdnBandWidth, Over(Over(bandWidth, 1024.0), 1024.0), [domain])];
    ch' := ch' + [Sample(e.cdnHitRate, Times(hitRate, 100.0), [domain])];
    ch' := ch' + [Sample(e.cdnFluxHitRate, Times(fluxHitRate, 100.0), [domain])];
    ghost var fixed := [BandWidthSample(e, domain, m), HitRateSample(e, domain, m), FluxHitRateSample(e, domain, m)];
    assert ch' == ch + fixed;
    ch', order := SendStatusRates(e, domain, statusProportion, ch');
  }

  /**
   * One scrape: for each domain of the list, in order, its samples are
   * sent. `orders` records the order in which each domain's status map
   * was visited.
   */
  method Collect(e: CdnExporter, provider: Provider, now: int)
    returns (ch: seq<Sample>, ghost orders: seq<seq<string>>)
    ensures OrdersFit(Scrape(e, provider, now, e.domainList), orders)
    ensures ch == Emitted(e, e.domainList, Scrape(e, provider, now, e.domainList), orders)
    ensures |ch| == SumBy(Scrape(e, provider, now, e.domainList), (m: DomainMetrics) => 3 + |m.statusProportion|)
    ensures FixedDescriptors(e) ==> forall s :: s in ch ==>
      s.desc in Describe(e) && |s.labelValues| == |s.desc.variableLabels| && s.labelValues[0] in e.domainList
  {
    ghost var ms := Scrape(e, provider, now, e.domainList);
    ch, orders := [], [];
    for i := 0 to |e.domainList|
      invariant OrdersFit(ms[..i], orders)
      invariant ch == Emitted(e, e.domainList[..i], ms[..i], orders)
    {
      ghost var order;
      ch, order := CollectDomain(e, provider, now, e.domainList[i], ch);
      EmittedStep(e, e.domainList, ms, orders, i, order);
      orders := orders + [order];
    }
    assert e.domainList[..|e.domainList|] == e.domainList && ms[..|ms|] == ms;
    EmittedLength(e, e.domainList, ms, orders);
    if FixedDescriptors(e) {
      EmittedDescribed(e, e.domainList, ms, orders);
    }
  }

  // ---------------------------------------------------------------------
  // Properties of a scrape
  // ---------------------------------------------------------------------

  /**
   * The i-th status sample is the one of the i-th visited key: labelled with
   * the domain and the key, it carries the key's proportion as a percentage.
   */
  lemma {:induction false} StatusSamplesShape(e: CdnExporter, domain: string, sp: map<string, Value>, order: seq<string>)
    requires forall k :: k in order ==> k in sp
    ensures |StatusSamples(e, domain, sp, order)| == |order|
    ensures forall j :: 0 <= j < |order| ==>
      StatusSamples(e, domain, sp, order)[j] == StatusSample(e, domain, order[j], sp[order[j]])
  {
    if order != [] {
      StatusSamplesShape(e, domain, sp, order[..|order| - 1]);
    }
  }

  /**
   * One domain's block: the bandwidth sample (in Mbps), the hit-rate and
   * byte-hit-rate samples (as percentages), then one status sample per key
   * of the status map.
   */
  lemma DomainSamplesShape(e: CdnExporter, domain: string, m: DomainMetrics, order: seq<string>)
    requires IsIterationOrder(order, m.statusProportion.Keys)
    ensures var out := DomainSamples(e, domain, m, order);
      && |out| == 3 + |m.statusProportion|
      && out[0] == Sample(e.cdnBandWidth, Over(Over(m.bandWidth, 1024.0), 1024.0), [domain])
      && out[1] == Sample(e.cdnHitRate, Times(m.hitRate, 100.0), [domain])
      && out[2] == Sample(e.cdnFluxHitRate, Times(m.fluxHitRate, 100.0), [domain])
      && out[3..] == StatusSamples(e, domain, m.statusProportion, order)
  {
    StatusSamplesShape(e, domain, m.statusProportion, order);
    IterationOrderLength(order, m.statusProportion.Keys);
  }

  /** Every key of the map has its sample among the status samples. */
  lemma StatusSamplesCover(e: CdnExporter, domain: string, sp: map<string, Value>, order: seq<string>)
    requires IsIterationOrder(order, sp.Keys)
    ensures forall k :: k in sp ==>
      exists j :: 0 <= j < |StatusSamples(e, domain, sp, order)| &&
        StatusSamples(e, domain, sp, order)[j] == StatusSample(e, domain, k, sp[k])
  {
    var tail := StatusSamples(e, domain, sp, order);
    StatusSamplesShape(e, domain, sp, order);
    forall k | k in sp
      ensures exists j :: 0 <= j < |tail| && tail[j] == StatusSample(e, domain, k, sp[k])
    {
      var i :| 0 <= i < |order| && order[i] == k;
      assert tail[i] == StatusSample(e, domain, k, sp[k]);
    }
  }

  /** No two status samples of one domain carry the same labels. */
  lemma StatusLabelsDistinct(e: CdnExporter, domain: string, sp: map<string, Value>, order: seq<string>)
    requires forall k :: k in order ==> k in sp
    requires Distinct(order)
    ensures forall j, j' :: 0 <= j < j' < |StatusSamples(e, domain, sp, order)| ==>
      StatusSamples(e, domain, sp, order)[j].labelValues != StatusSamples(e, domain, sp, order)[j'].labelValues
  {
    var tail := StatusSamples(e, domain, sp, order);
    StatusSamplesShape(e, domain, sp, order);
    forall j, j' | 0 <= j < j' < |tail|
      ensures tail[j].labelValues != tail[j'].labelValues
    {
      assert tail[j].labelValues[1] == order[j];
      assert tail[j'].labelValues[1] == order[j'];
    }
  }

  /** The bandwidth sample is the China total over the divisor, scaled from bps to Mbps. */
  lemma BandWidthMbps(e: CdnExporter, domain: string, m: DomainMetrics, data: seq<Keyed<Zone>>)
    requires m.bandWidth == BandwidthAverage(data)
    ensures BandWidthSample(e, domain, m).value == Div(ChinaTotal(data), LastChinaCount(data) * 1048576)
  {
    OverOver(ChinaTotal(data), LastChinaCount(data));
  }

  /** With non-negative counts, not all zero, the request hit-rate sample is a percentage. */
  lemma HitRatePercent(e: CdnExporter, domain: string, m: DomainMetrics, detail: HitMissDetail)
    requires m.hitRate == HitRatio(detail.hit, detail.miss)
    requires NonNegative(detail.hit) && NonNegative(detail.miss)
    requires Sum(detail.hit) + Sum(detail.miss) > 0
    ensures HitRateSample(e, domain, m).value.Finite?
    ensures 0.0 <= HitRateSample(e, domain, m).value.x <= 100.0
    ensures HitRateSample(e, domain, m).value.x == 100.0 <==> Sum(detail.miss) == 0
  {
    HitRatioBounds(detail.hit, detail.miss);
  }

  /** With non-negative byte counts, not all zero, the byte hit-rate sample is a percentage. */
  lemma FluxHitRatePercent(e: CdnExporter, domain: string, m: DomainMetrics, detail: HitMissDetail)
    requires m.fluxHitRate == HitRatio(detail.trafficHit, detail.trafficMiss)
    requires NonNegative(detail.trafficHit) && NonNegative(detail.trafficMiss)
    requires Sum(detail.trafficHit) + Sum(detail.trafficMiss) > 0
    ensures FluxHitRateSample(e, domain, m).value.Finite?
    ensures 0.0 <= FluxHitRateSample(e, domain, m).value.x <= 100.0
    ensures FluxHitRateSample(e, domain, m).value.x == 100.0 <==> Sum(detail.trafficMiss) == 0
  {
    HitRatioBounds(detail.trafficHit, detail.trafficMiss);
  }

  /** With non-negative samples and a non-zero grand total, every status sample is a percentage. */
  lemma StatusPercent(e: CdnExporter, domain: string, codes: GoMap<seq<int>>, order: seq<string>)
    requires AllNonNegative(codes) && GrandTotal(codes) > 0
    requires IsIterationOrder(order, Proportions(codes).Keys)
    ensures forall s :: s in StatusSamples(e, domain, Proportions(codes), order) ==>
      s.value.Finite? && 0.0 <= s.value.x <= 100.0
  {
    var sp := Proportions(codes);
    ShareBounds(codes);
    StatusSamplesShape(e, domain, sp, order);
  }

  /** The exporter's descriptors are the four fixed ones, as `NewCdnExporter` sets them. */
  predicate FixedDescriptors(e: CdnExporter)
  {
    && e.cdnHitRate == HitRateDesc && e.cdnFluxHitRate == FluxHitRateDesc
    && e.cdnBandWidth == BandWidthDesc && e.cdnStatusRate == StatusRateDesc
  }

  /** Every sample of one domain's block belongs to a described metric and is labelled with the domain. */
  lemma BlockDescribed(e: CdnExporter, domain: string, m: DomainMetrics, order: seq<string>)
    requires FixedDescriptors(e)
    requires forall k :: k in order ==> k in m.statusProportion
    ensures forall s :: s in DomainSamples(e, domain, m, order) ==>
      && s.desc in Describe(e)
      && |s.labelValues| == |s.desc.variableLabels|
      && s.labelValues[0] == domain
  {
    var block := DomainSamples(e, domain, m, order);
    StatusSamplesShape(e, domain, m.statusProportion, order);
    forall s | s in block
      ensures s.desc in Describe(e) && |s.labelValues| == |s.desc.variableLabels| && s.labelValues[0] == domain
    {
      var j :| 0 <= j < |block| && block[j] == s;
      if j >= 3 {
        assert s == StatusSample(e, domain, order[j - 3], m.statusProportion[order[j - 3]]);
      }
    }
  }

  /**
   * Every sample of a scrape belongs to a described metric, carries one
   * label value per variable label, and is labelled with a configured domain.
   */
  lemma {:induction false} EmittedDescribed(e: CdnExporter, domains: seq<string>,
                                            ms: seq<DomainMetrics>, orders: seq<seq<string>>)
    requires FixedDescriptors(e)
    requires |domains| == |ms| && OrdersFit(ms, orders)
    ensures forall s :: s in Emitted(e, domains, ms, orders) ==>
      && s.desc in Describe(e)
      && |s.labelValues| == |s.desc.variableLabels|
      && s.labelValues[0] in domains
  {
    if domains != [] {
      var n := |domains| - 1;
      var prefix := domains[..n];
      EmittedDescribed(e, prefix, ms[..n], orders[..n]);
      BlockDescribed(e, domains[n], ms[n], orders[n]);
      assert forall d :: d in prefix ==> d in domains;
    }
  }

  /** The number of samples of a scrape: three per domain and one per status key. */
  lemma {:induction false} EmittedLength(e: CdnExporter, domains: seq<string>,
                                         ms: seq<DomainMetrics>, orders: seq<seq<string>>)
    requires |domains| == |ms| && OrdersFit(ms, orders)
    ensures |Emitted(e, domains, ms, orders)| == SumBy(ms, (m: DomainMetrics) => 3 + |m.statusProportion|)
  {
    if domains != [] {
      var n := |domains| - 1;
      EmittedLength(e, domains[..n], ms[..n], orders[..n]);
      DomainSamplesShape(e, domains[n], ms[n], orders[n]);
    }
  }

  /** Visiting orders for the metrics of a prefix of the domains. */
  lemma OrdersFitPrefix(ms: seq<DomainMetrics>, orders: seq<seq<string>>, i: nat)
    requires OrdersFit(ms, orders) && i <= |ms|
    ensures OrdersFit(ms[..i], orders[..i])
  {
    forall k | 0 <= k < i
      ensures IsIterationOrder(orders[..i][k], ms[..i][k].statusProportion.Keys)
    {
      assert orders[..i][k] == orders[k] && ms[..i][k] == ms[k];
    }
  }

  /** The samples of the first i domains come first: domains are handled in list order. */
  lemma {:induction false} EmittedPrefix(e: CdnExporter, domains: seq<string>,
                                         ms: seq<DomainMetrics>, orders: seq<seq<string>>, i: nat)
    requires |domains| == |ms| && OrdersFit(ms, orders)
    requires i <= |domains|
    ensures OrdersFit(ms[..i], orders[..i])
    ensures Emitted(e, domains[..i], ms[..i], orders[..i]) <= Emitted(e, domains, ms, orders)
  {
    OrdersFitPrefix(ms, orders, i);
    if i < |domains| {
      var n := |domains| - 1;
      var ds, ns, os := domains[..n], ms[..n], orders[..n];
      OrdersFitPrefix(ms, orders, n);
      assert Emitted(e, ds, ns, os) <= Emitted(e, domains, ms, orders);
      EmittedPrefix(e, ds, ns, os, i);
      assert ds[..i] == domains[..i] && ns[..i] == ms[..i] && os[..i] == orders[..i];
    } else {
      assert domains[..i] == domains && ms[..i] == ms && orders[..i] == orders;
    }
  }

  /** Different keys of one status map give different samples. */
  lemma StatusSamplesDistinct(e: CdnExporter, domain: string, sp: map<string, Value>, order: seq<string>)
    requires forall k :: k in order ==> k in sp
    requires Distinct(order)
    ensures Distinct(StatusSamples(e, domain, sp, order))
  {
    StatusLabelsDistinct(e, domain, sp, order);
  }

  /** A status sample is sent exactly for the visited keys. */
  lemma StatusSamplesMembers(e: CdnExporter, domain: string, sp: map<string, Value>, order: seq<string>, s: Sample)
    requires forall k :: k in order ==> k in sp
    ensures s in StatusSamples(e, domain, sp, order) <==>
      exists k :: k in order && s == StatusSample(e, domain, k, sp[k])
  {
    var out := StatusSamples(e, domain, sp, order);
    StatusSamplesShape(e, domain, sp, order);
    if s in out {
      var j :| 0 <= j < |out| && out[j] == s;
      assert order[j] in order;
    }
    if exists k :: k in order && s == StatusSample(e, domain, k, sp[k]) {
      var k :| k in order && s == StatusSample(e, domain, k, sp[k]);
      var j :| 0 <= j < |order| && order[j] == k;
      assert out[j] == s;
    }
  }

  /** Whichever order a status map is visited in, the same samples are sent. */
  lemma StatusSamplesAnyOrder(e: CdnExporter, domain: string, sp: map<string, Value>,
                              order: seq<string>, other: seq<string>)
    requires IsIterationOrder(order, sp.Keys) && IsIterationOrder(other, sp.Keys)
    ensures multiset(StatusSamples(e, domain, sp, order)) == multiset(StatusSamples(e, domain, sp, other))
  {
    var a, b := StatusSamples(e, domain, sp, order), StatusSamples(e, domain, sp, other);
    StatusSamplesDistinct(e, domain, sp, order);
    StatusSamplesDistinct(e, domain, sp, other);
    forall s
      ensures s in a <==> s in b
    {
      StatusSamplesMembers(e, domain, sp, order, s);
      StatusSamplesMembers(e, domain, sp, other, s);
    }
    SameKeysPermutation(a, b);
  }

  /**
   * The visiting order of each domain's status map changes only the order of
   * a scrape's samples, never the samples. The order of the bandwidth data map
   * is part of the provider's answer and does change the bandwidth sample
   * (`BandwidthDependsOnOrder`).
   */
  lemma {:induction false} EmittedAnyOrder(e: CdnExporter, domains: seq<string>, ms: seq<DomainMetrics>,
                                           orders: seq<seq<string>>, others: seq<seq<string>>)
    requires |domains| == |ms| && OrdersFit(ms, orders) && OrdersFit(ms, others)
    ensures multiset(Emitted(e, domains, ms, orders)) == multiset(Emitted(e, domains, ms, others))
  {
    if domains != [] {
      var n := |domains| - 1;
      EmittedAnyOrder(e, domains[..n], ms[..n], orders[..n], others[..n]);
      StatusSamplesAnyOrder(e, domains[n], ms[n].statusProportion, orders[n], others[n]);
    }
  }
}
