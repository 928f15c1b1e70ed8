# qiniu-exporter — a Dafny model of the CDN metric reducers and their emission

qiniu-exporter is a Prometheus exporter for Qiniu CDN statistics. On every
scrape it walks the configured domains. For each domain it asks the Qiniu
API for three series: bandwidth, hit/miss counts and status-code counts. It
folds each series into scalar metrics and sends them as labelled gauges:

- `qiniu_cdn_bandwidth`, in Mbps;
- `qiniu_cdn_hit_rate` and `qiniu_cdn_flux_hit_rate`, in percent;
- `qiniu_cdn_status_rate`, in percent, with one sample per status key.

This project models that core and proves properties of it:

- `Retrieve` (retrieve.dfy) holds the retrieval side:
  - the query window;
  - the request bodies;
  - the domain-name collection;
  - the three reducers `GetBandWidth`, `GetHitMiss` and `GetStatusCode`.

  Each reducer is a method with the source's loops. It is proved equal to a
  specification function: `BandwidthAverage`, `HitRatio` or `Proportions`.
  Lemmas state what each result means.
- `Exporter` (exporter.dfy) holds the exporter side:
  - the exporter's configuration and its four descriptors (`NewCdnExporter`,
    `Describe`);
  - a scrape (`Collect`). It appends samples to a sequence that stands for
    the metric channel. It is proved equal to `Emitted` and to the reducers'
    specification functions.
- Three small support modules:
  - `Sums`: integer sums over sequences.
  - `Floats`: float64 results, including the non-finite value that Go's
    division by zero yields.
  - `GoMaps`: Go maps, including their unspecified iteration order.

Modelling choices:

- **The provider is a parameter.** It is the already-decoded content of the
  API's responses, as a total function of the request. Transport, signing
  and JSON decoding are not part of the model.
- **Decoded maps are sequences.** The bandwidth `data` map and the
  status-code `codes` map are sequences of distinct-key entries, listed in
  the order Go's `range` visits them. Every property over them holds
  whatever order Go picks.
- **Maps the code builds itself get an arbitrary order.** This covers
  `statusTotal` (retrieve/cdn_retrieve.go:263) and `statusProportion`, which
  `Collect` visits (exporter/cdn_exporter.go:102). The
  method `IterationOrder` picks any order that lists each key once.
- **There is one clock reading, `now`.** It is injected as an integer number
  of seconds.
- **Counts are unbounded integers and ratios are exact reals.** A Go
  division whose denominator is zero gives `NonFinite` (NaN or an infinity
  in Go). Later scaling keeps `NonFinite`.

Three behaviours of the code are easy to get wrong, and the model keeps them:

- **The status-code grand total includes class-token keys.** A response key
  such as `"5xx"` counts toward the grand total, because
  `allStatusTotal += value` runs for every key (retrieve/cdn_retrieve.go:255-262).
  That key is never reported itself. `Retrieve.StatusScenario` shows this on
  a concrete response.
- **The bandwidth divisor comes from the last data point.** It is the number
  of China samples of the data point visited last, not the number of
  samples summed (retrieve/cdn_retrieve.go:180-182). The result therefore
  depends on Go's map order, and `Retrieve.BandwidthDependsOnOrder` exhibits
  two orders that disagree.
- **The hit/miss and status-code requests send only days.** They format the
  window's ends with the date-only layout, so a window of a few hours still
  asks for whole days (retrieve/cdn_retrieve.go:188-189, 231-232). The
  bandwidth request keeps seconds.

## Model

| member | source | states |
|---|---|---|
| Retrieve.TimeWindow | retrieve/cdn_retrieve.go:152-153 | The window starts at `now - rangeTime` and ends at `now - delayTime`. Its length is `rangeTime - delayTime`. It is non-empty exactly when `rangeTime > delayTime`. Its ends are not after `now` exactly when the offsets are non-negative. Nothing enforces either. |
| Retrieve.BandwidthQueryFor | retrieve/cdn_retrieve.go:152-160 | The bandwidth request carries the window in seconds, the granularity, the domain as a single string and the type "bandwidth". |
| Retrieve.LogQueryFor | retrieve/cdn_retrieve.go:188-195 | The hit-miss and status-code request carries the days on which the window's start and end fall, the granularity as `freq`, and a one-element domain list. |
| Retrieve.DayOf | retrieve/cdn_retrieve.go:188-189 | The date-only formatting keeps the day an instant falls in: `d * 86400 <= t < (d + 1) * 86400`, counted in days since the epoch. |
| Retrieve.DayOfEdges | retrieve/cdn_retrieve.go:231-232 | Days are floored like calendar dates: the last second before the epoch is day -1, second 86399 is day 0 and second 86400 is day 1. |
| Retrieve.LogQueryDays | retrieve/cdn_retrieve.go:188-189 | A non-empty window never asks for an end day before its start day. |
| Retrieve.LogQuerySameDay | retrieve/cdn_retrieve.go:231-232 | Any window that lies inside one day, however short, asks for that day as both start day and end day. |
| Retrieve.LogQueryHourExample | retrieve/cdn_retrieve.go:231-232 | The one-hour window 7200 to 3600 seconds before `now` = 100000 asks for day 1 as both start and end. |
| Retrieve.GetDomains | retrieve/cdn_retrieve.go:144-147 | One name per decoded descriptor, in descriptor order. No descriptors give the empty list. |
| Retrieve.SumSamples | retrieve/cdn_retrieve.go:212-214 | The accumulation loop `total += v` yields the sum of the samples. It stands for each of the six accumulation loops of the reducers (seven `+=` statements), at lines 177-179, 212-223 and 257-260. In the status loop, `allStatusTotal` (line 259) is not summed through `SumSamples`: `StatusTotals` adds each key's total to it, which gives the same sum. |
| Retrieve.GetBandWidth | retrieve/cdn_retrieve.go:176-183 | The result is the sum of every China sample of every data point, in Go's visiting order, divided by the China length of the last point visited. |
| Retrieve.OverseaIgnored | retrieve/cdn_retrieve.go:176-179 | Oversea samples never change the total or the result. |
| Retrieve.ChinaTotalAnyOrder | retrieve/cdn_retrieve.go:176-179 | The China total is the same in every visiting order. |
| Retrieve.BandwidthDivisor | retrieve/cdn_retrieve.go:180-182 | The divisor is the China length of the last point. Empty data leave it 0 and give a non-finite result. |
| Retrieve.SinglePointMean | retrieve/cdn_retrieve.go:180-182 | With a single data point that has samples, the result is the true mean of its China samples. |
| Retrieve.BandwidthDependsOnOrder | retrieve/cdn_retrieve.go:176-182 | Two visiting orders of the same two points give 4.0 and 8.0. |
| Retrieve.GetHitMiss | retrieve/cdn_retrieve.go:212-225 | The hit rate is `sum(hit) / (sum(miss) + sum(hit))`. The byte-hit rate is `sum(trafficHit) / (sum(trafficHit) + sum(trafficMiss))`. |
| Retrieve.HitRatioDefined | retrieve/cdn_retrieve.go:224-225 | With non-negative counts, the ratio is finite exactly when some count is positive. |
| Retrieve.HitRatioBounds | retrieve/cdn_retrieve.go:212-225 | With non-negative counts and a positive denominator, the ratio lies in [0, 1]. It is 1 exactly when there are no misses and 0 exactly when there are no hits. |
| Retrieve.HitRatioExample | retrieve/cdn_retrieve.go:212-225 | hit = [10, 20] and miss = [5, 5] give 0.75. |
| Retrieve.StatusTotals | retrieve/cdn_retrieve.go:253-262 | The first status loop yields `statusTotal` and `allStatusTotal`. `statusTotal` maps each key to the sum of its samples. `allStatusTotal` sums every sample of every key, class tokens included. |
| Retrieve.TotalsShape | retrieve/cdn_retrieve.go:255-262 | `statusTotal` has exactly the response's keys, and each key holds the sum of its own samples. |
| Retrieve.GetStatusCode | retrieve/cdn_retrieve.go:253-279 | The two loops produce `Proportions` of the response, whatever order Go visits `statusTotal` in. |
| Retrieve.RecordStep | retrieve/cdn_retrieve.go:263-278 | Every visit of one more key keeps the invariant `Accounts`. Visited exact codes hold their share. Each class with a visited code has its bucket, holding the share of those codes. No other key is present. |
| Retrieve.RecordInClass | retrieve/cdn_retrieve.go:268-276 | An exact code whose first character is 2-5 adds its share to the bucket "Nxx" of that character. |
| Retrieve.IsAggregate | retrieve/cdn_retrieve.go:264 | `strings.HasSuffix(status, "x")`: a key is a class token exactly when it is non-empty and ends in 'x'. The empty key is an exact code. |
| Retrieve.StartsWith | retrieve/cdn_retrieve.go:268-274 | `strings.HasPrefix(status, "N")`: the key is non-empty and its first character is N. |
| Retrieve.AddTo | retrieve/cdn_retrieve.go:269-275 | `statusProportion[key] += v` on a float64 map, where a missing key reads as 0.0. |
| Retrieve.AddToEffect | retrieve/cdn_retrieve.go:269-275 | `+=` adds the key if it is missing and leaves every other key unchanged. A present key gets `old + v`, and a missing key gets `0.0 + v`, which is `v` when `v` is finite. |
| Retrieve.Record | retrieve/cdn_retrieve.go:264-277 | One pass of the proportion loop body for one key, with its total. `GetStatusCode` runs it for each visited key. |
| Retrieve.RecordEffect | retrieve/cdn_retrieve.go:264-277 | A class token leaves the map unchanged. An exact code gets `total / grand`. Every other exact code keeps its value. The only key that can be added besides the code is its class bucket. |
| Retrieve.StatusKeyEdges | retrieve/cdn_retrieve.go:263-277 | The empty key and "200" are exact codes, and "5xx" is a class token. Recording the empty key or "103" adds only that key. Recording "5xx" adds nothing. Recording "204" adds its share to the existing "2xx" bucket. |
| Retrieve.AccountsIsProportions | retrieve/cdn_retrieve.go:263-278 | Once every key has been visited, the invariant determines the map: it equals `Proportions`. |
| Retrieve.StatusKeys | retrieve/cdn_retrieve.go:263-266 | Every exact code of the response is a key of the result, with share `statusTotal[key] / grand`. Every other non-aggregate key of the result is a response key. Aggregate keys of the result are class buckets only: class-token keys of the response are not copied through. |
| Retrieve.StatusBuckets | retrieve/cdn_retrieve.go:268-276 | The bucket of class N is present exactly when some exact code starts with N. Its value is the total of those codes over the grand total. |
| Retrieve.BucketIsSumOfShares | retrieve/cdn_retrieve.go:268-276 | Each bucket equals the float sum of the shares of the exact codes of its class. |
| Retrieve.UnclassedInNoBucket | retrieve/cdn_retrieve.go:268-276 | An exact code whose first character is outside 2-5 adds to no bucket, but does add to the exact-code total. |
| Retrieve.ExactSharesTotal | retrieve/cdn_retrieve.go:259-266 | With a non-zero grand total, the exact-code shares add up to `(grand - class-token samples) / grand`. That is exactly 1 when the response has no class-token samples. |
| Retrieve.ShareBounds | retrieve/cdn_retrieve.go:259-265 | With non-negative samples and a positive grand total, every value of the result is finite and in [0, 1]. |
| Retrieve.StatusScenario | retrieve/cdn_retrieve.go:253-278 | 10×"200", 5×"404" and 3×"5xx" give keys {200, 404, 2xx, 4xx}. The shares are out of 18, and there is no "5xx" bucket. |
| Retrieve.ProportionsAnyOrder | retrieve/cdn_retrieve.go:255-262 | Two orderings of the same response entries give the same map. |
| Floats.Div | retrieve/cdn_retrieve.go:182 | `float64(num) / float64(den)` is finite exactly when `den != 0`, and then it times `den` is `num`. |
| Floats.Add | retrieve/cdn_retrieve.go:269 | A float sum is finite exactly when both operands are. |
| Floats.Over | exporter/cdn_exporter.go:87 | Dividing by a non-zero constant keeps finiteness, and the result times the constant is the operand. |
| Floats.Times | exporter/cdn_exporter.go:93 | Scaling by a constant keeps finiteness. |
| Floats.OverOver | exporter/cdn_exporter.go:87 | Dividing a quotient by 1024 twice is dividing by `den * 1048576`. |
| GoMaps.IterationOrder | retrieve/cdn_retrieve.go:263 | `range` over a map the program built visits each key exactly once. |
| GoMaps.IterationOrderLength | exporter/cdn_exporter.go:102-110 | A visit of a map sees as many keys as the map has. |
| Exporter.NewCdnExporter | exporter/cdn_exporter.go:25-67 | The configuration is stored unchanged, and the four descriptors are the fixed ones. |
| Exporter.Describe | exporter/cdn_exporter.go:70-75 | Four descriptors, in the order hit rate, byte-hit rate, bandwidth, status rate. |
| Exporter.MetricNames | exporter/cdn_exporter.go:33-65 | The fully-qualified names are qiniu_cdn_hit_rate, qiniu_cdn_flux_hit_rate, qiniu_cdn_bandwidth and qiniu_cdn_status_rate. |
| Exporter.CdnName | exporter/cdn_exporter.go:34 | For a non-empty name, `prometheus.BuildFQName("qiniu", "cdn", name)` (also at lines 42, 50 and 58) is the prefix "qiniu_cdn_" followed by the name itself. The exporter only passes four non-empty literals. |
| Exporter.CdnNameSplit | exporter/cdn_exporter.go:34 | For a non-empty name, the fully-qualified name is 10 characters of "qiniu_cdn_" followed by the metric's own name, so the name can be read back from it. |
| Exporter.DescribeFixed | exporter/cdn_exporter.go:25-75 | A freshly built exporter describes four metrics with distinct names. The status metric carries labels (instanceId, status) and the others carry (instanceId). |
| Exporter.Collect | exporter/cdn_exporter.go:77-111 | The samples sent are `Emitted` over the reducers' results for each configured domain, in list order. Each status map is visited in some order that lists each key once. Whatever that order, the scrape sends 3 + (number of status keys) samples per domain. For an exporter built by `NewCdnExporter`, every sample belongs to a described metric, has one label value per variable label, and its domain label is a configured domain. |
| Exporter.CollectDomain | exporter/cdn_exporter.go:79-110 | One loop body yields the domain's block: bandwidth, hit rate, byte-hit rate, then the status samples. Each comes from its reducer's specification function. |
| Exporter.SendStatusRates | exporter/cdn_exporter.go:102-110 | The inner loop sends one status sample per key, in the visiting order. |
| Exporter.EmittedStep | exporter/cdn_exporter.go:78-111 | Handling one more domain appends exactly its block. |
| Exporter.DomainSamplesShape | exporter/cdn_exporter.go:84-110 | A block has 3 + (number of status keys) samples: bandwidth ÷1024÷1024, hit rate ×100 and byte-hit rate ×100, each labelled with the domain, then the status samples. |
| Exporter.StatusSamplesShape | exporter/cdn_exporter.go:102-110 | The i-th status sample is the proportion ×100 of the i-th visited key, labelled (domain, key). |
| Exporter.StatusSamplesCover | exporter/cdn_exporter.go:102-110 | Every key of the status map gets its sample. |
| Exporter.StatusLabelsDistinct | exporter/cdn_exporter.go:102-110 | No two status samples of one domain carry the same labels. |
| Exporter.BandWidthMbps | exporter/cdn_exporter.go:84-89 | The bandwidth sample is the China total over `divisor * 1048576`. |
| Exporter.HitRatePercent | exporter/cdn_exporter.go:90-95 | With non-negative counts, not all zero, the hit-rate sample lies in [0, 100]. It is 100 exactly when there are no misses. |
| Exporter.FluxHitRatePercent | exporter/cdn_exporter.go:96-101 | With non-negative byte counts, not all zero, the byte hit-rate sample lies in [0, 100]. It is 100 exactly when no bytes missed. |
| Exporter.StatusPercent | exporter/cdn_exporter.go:102-110 | With non-negative samples and a positive grand total, every status sample lies in [0, 100]. |
| Exporter.BlockDescribed | exporter/cdn_exporter.go:84-110 | Every sample of a block belongs to a described metric, has one label value per variable label, and is labelled with its domain. |
| Exporter.EmittedDescribed | exporter/cdn_exporter.go:78-111 | Every sample of a scrape has the block properties above, and its domain label is a configured domain. |
| Exporter.EmittedLength | exporter/cdn_exporter.go:78-111 | A scrape sends the sum over domains of 3 + (number of status keys) samples. An empty domain list sends nothing. |
| Exporter.EmittedPrefix | exporter/cdn_exporter.go:78-111 | The samples of the first i domains form a prefix of the scrape, so domains are handled in list order. |
| Exporter.StatusSamplesMembers | exporter/cdn_exporter.go:102-110 | A status sample is sent exactly for the visited keys, with their proportions. |
| Exporter.StatusSamplesAnyOrder | exporter/cdn_exporter.go:102-110 | Every visiting order of a status map sends the same multiset of samples. |
| Exporter.EmittedAnyOrder | exporter/cdn_exporter.go:78-111 | The visiting order of each domain's status map changes only the order of the samples, never the samples. The order of the bandwidth data map is part of the provider's answer and does change the bandwidth sample (`Retrieve.BandwidthDependsOnOrder`). |

## Left out

- **HTTP transport.** `getRequest` and `postRequest` (retrieve/cdn_retrieve.go:65-124) are left out: URL building, request signing, headers and the HTTP exchange are network I/O. The `Provider` parameter stands for what they return once decoded.
- **JSON encoding and decoding.** Neither the request bodies nor the responses are encoded or decoded. The `code` and `error` fields of the response envelopes are left out too, since the code never reads them.
- **`log.Fatal`.** The process-ending calls on request or decoding failure are left out: the provider is total, so the error paths cannot arise in the model.
- **Date formatting.** The date-string layouts are not modelled. The bandwidth window stays in seconds, and log queries carry day numbers (days since the epoch of the local wall clock). `now` is taken as local wall-clock seconds, so the time zone is not modelled.
- **The clock.** Each reducer reads `time.Now()` twice. The model passes a single `now`, the same for the whole scrape.
- **Prometheus.** Descriptor construction, the registry and `MustNewConstMetric` are replaced by `Desc` and `Sample` values. The metric channel is a sequence the samples are appended to. The panic that `MustNewConstMetric` raises on a label-count mismatch is left out; `Exporter.EmittedDescribed` shows that the counts always match.
- **`main.go`.** Flag and environment parsing, the HTTP listener and the landing page are I/O plumbing and are not part of this model.
- **Floating point.** Finite results are exact reals, so rounding is not modelled. NaN and the infinities are one value, `NonFinite`.
- **Integer widths.** The int64 accumulators (`bandWithTotal`, `hitTotal`, `allStatusTotal`, …) are unbounded, so wrap-around on overflow is not modelled. The same holds for the overflow of `time.Duration` for very large `rangeTime`/`delayTime`.
- **Pointer sharing.** `domainList` and `credential` are pointers in the exporter, and `*e.domainList` is read anew at each scrape. The model copies the list when the exporter is built, so changes made to the shared slice between scrapes are not modelled.
- **Repeated decoding of one answer.** The provider returns one sequence per request, so a decoded map is always visited in the same order when the same request is repeated (a domain listed twice, or a later scrape with the same window). Go re-randomises the order of every `range`, so repeated requests can give different bandwidths, because the divisor depends on the last point visited. The model does not capture that.
- **Collect's concurrency.** A concurrent reader of the channel only ever sees a prefix of the sequence, and that interleaving is not modelled.
