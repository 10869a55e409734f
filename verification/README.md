# GPU price-comparison data layer, modelled in Dafny

This project models the pure data layer of a read-only GPU cloud price
dashboard. The catalog holds GPU records, cloud provider records, and pricing
rows that tie one GPU to one provider. The model covers:

- **Offering join** (`lib/gpu-data.ts`). Lookup by id. The best-effort join turns
  pricing rows into *offerings* (row + GPU + provider + two scores). A row whose
  GPU id or provider id does not resolve is silently dropped. It is done per GPU,
  per provider, and over the whole catalog.
- **Scores**. The performance score is a weighted blend of VRAM, fp16 throughput
  and memory bandwidth against fixed reference maxima (288 GB, 5300 TFLOPS,
  8 TB/s). The value score is `max(0, 100 - 10 * price / (performance / 100))`.
- **Rankings**. Best value and fastest sort the whole join descending by one score
  with a stable sort, then keep the first `limit` entries.
- **Metrics** (`lib/metrics.ts`). The availability badge, the performance
  indicator (1 to 5 bolts), the reliability badge, the mean availability, the
  lowest price, and the distinct provider count.
- **Home page helpers** (`app/page.tsx`). These are local copies of the
  availability badge and the performance indicator, proved to agree with the
  shared ones.

The catalog is a parameter (`Catalog.Store`: three sequences), not the static
arrays. Every field that `types/index.ts` types as `number` is a Dafny `real`.

Modules: `Wrappers` (Option), `Catalog` (record shapes of `types/index.ts`),
`Scoring`, `Offerings`, `Ranking`, `Metrics`, `HomePage`, and `Samples` (the A100
80GB record and its $0.89 RunPod row as concrete checks).

The program's own comment calls the performance score "(0-100)"
(lib/gpu-data.ts:1066), but the code does not clamp it. The model follows the
code. `Scoring.PerformanceScore` ensures a score of at most 100 when the inputs
are non-negative and within the reference maxima. `Scoring.PerformanceNotClamped`
shows that the score goes above 100 when all three inputs are at or beyond their
maxima, with VRAM strictly beyond.

## Model

| member | source | states |
|---|---|---|
| Offerings.GPUById | lib/gpu-data.ts:1002-1004 | None exactly when no GPU has the id; otherwise the GPU at the earliest index whose id matches |
| Offerings.ProviderById | lib/gpu-data.ts:1007-1009 | None exactly when no provider has the id; otherwise the provider at the earliest index whose id matches |
| Offerings.PricingForGPU | lib/gpu-data.ts:1012-1014 | a row is in the result iff it is a catalog row with that gpuId; no longer than the input |
| Offerings.PricingForGPUConcat | lib/gpu-data.ts:1012-1014 | the filter distributes over concatenation, so catalog order is kept |
| Offerings.JoinForGPU | lib/gpu-data.ts:1021-1037 | every offering carries the given GPU, a row from the input, the provider that the row's providerId resolves to, and its own scores |
| Offerings.OfferingsForGPU | lib/gpu-data.ts:1017-1038 | empty when the GPU id does not resolve; every offering has gpu.id and pricing.gpuId equal to the id and is resolved against the store with its own scores |
| Offerings.OfferingsForGPURows | lib/gpu-data.ts:1017-1038 | when the GPU resolves, the offerings' rows are exactly that GPU's rows whose provider resolves, in catalog order, so the length is the number of such rows |
| Offerings.OfferingsForGPUIsRestriction | lib/gpu-data.ts:1017-1038 | the per-GPU offerings equal the global join restricted to rows of that GPU, in order |
| Offerings.JoinForProvider | lib/gpu-data.ts:1043-1063 | every offering carries the given provider, a row of that provider, the GPU that the row's gpuId resolves to, and its own scores |
| Offerings.OfferingsForProvider | lib/gpu-data.ts:1040-1064 | empty for an unknown provider; every offering has provider.id equal to the id and is resolved against the store |
| Offerings.OfferingsForProviderIsRestriction | lib/gpu-data.ts:1040-1064 | the per-provider offerings equal the global join restricted to that provider's rows, in order, so rows with an unknown GPU are dropped |
| Offerings.Join | lib/gpu-data.ts:1089-1106 | every offering comes from an input row whose GPU and provider ids resolve to its GPU and provider, with both scores computed from them |
| Offerings.AllOfferings | lib/gpu-data.ts:1089-1106 | every global offering is resolved against the store |
| Offerings.AllOfferingsRows | lib/gpu-data.ts:1089-1106 | the global join keeps exactly the rows whose two ids resolve, in catalog order, one offering each |
| Scoring.PerformanceScore | lib/gpu-data.ts:1067-1074 | non-negative for non-negative inputs; at most 100 when the inputs are also within their reference maxima |
| Scoring.PerformanceMonotone | lib/gpu-data.ts:1067-1074 | non-decreasing in VRAM, fp16 throughput and bandwidth |
| Scoring.PerformanceAtReference | lib/gpu-data.ts:1067-1074 | a GPU at exactly the reference maxima scores 100 |
| Scoring.PerformanceNotClamped | lib/gpu-data.ts:1067-1074 | a GPU with VRAM beyond its reference maximum and fp16 and bandwidth at or beyond theirs scores above 100 |
| Scoring.ValueScore | lib/gpu-data.ts:1077-1085 | never negative; for positive performance it is 0 iff ten times the price reaches the performance score, at most 100 for a non-negative price, and otherwise satisfies value * perf = 100 * perf - 1000 * price |
| Scoring.ValueAntitoneInPrice | lib/gpu-data.ts:1077-1085 | for positive performance, a higher price never raises the value score |
| Scoring.ValueMonotoneInPerformance | lib/gpu-data.ts:1077-1085 | at a fixed non-negative price, higher performance never lowers the value score |
| Ranking.Insert | lib/gpu-data.ts:1108-1110 | inserting adds exactly one element: the result is the input multiset plus the new offering |
| Ranking.InsertSorted | lib/gpu-data.ts:1108-1110 | inserting into a descending sequence keeps it descending |
| Ranking.SortDesc | lib/gpu-data.ts:1108-1110 | the result is sorted descending by the key and is a permutation of the input |
| Ranking.SortKeepsTies | lib/gpu-data.ts:1108-1110 | the sort is stable: for each key value, the entries with that key appear in input order |
| Ranking.Top | lib/gpu-data.ts:1108-1110 | min(limit, n) entries, descending, drawn from the input, and no entry left out scores above any kept one |
| Ranking.TopKeepsTies | lib/gpu-data.ts:1108-1110 | for each key value, the kept entries with that key are the first ones with that key in input order |
| Ranking.BestValueGPUs | lib/gpu-data.ts:1088-1111 | min(limit, number of resolvable rows) offerings, descending by value score, each from the global join, none left out scoring higher |
| Ranking.BestValueKeepsTies | lib/gpu-data.ts:1108-1110 | equal value scores keep catalog order |
| Ranking.FastestGPUs | lib/gpu-data.ts:1114-1137 | min(limit, number of resolvable rows) offerings, descending by performance score, each from the global join, none left out scoring higher |
| Ranking.FastestKeepsTies | lib/gpu-data.ts:1134-1136 | equal performance scores keep catalog order |
| Metrics.GetAvailabilityBadge | lib/metrics.ts:8-34 | exactly one of four badges: N/A iff no score, High iff score >= 80, Medium iff 50 <= score < 80, Low iff score < 50 |
| Metrics.AvailabilityBadgeMonotone | lib/metrics.ts:16-33 | a higher score never yields a lower band |
| Metrics.AvailabilityBoundaries | lib/metrics.ts:16-33 | 80 is High, 79 and 50 are Medium, 49 is Low |
| Metrics.GetPerformanceIndicator | lib/metrics.ts:36-42 | 1 to 5 bolts; n bolts with n > 1 means score >= 20(n-1), and fewer than 5 means score < 20n |
| Metrics.PerformanceIndicatorMonotone | lib/metrics.ts:36-42 | a higher score never yields fewer bolts |
| Metrics.CalculateAverageAvailability | lib/metrics.ts:44-48 | None iff the list is empty; otherwise mean * length equals the sum, and the mean lies between some offering's score and another's (between min and max) |
| Metrics.MinPriceFrom | lib/metrics.ts:52-55 | the fold result is at most the seed and every price, and is the seed or some offering's price |
| Metrics.GetLowestPrice | lib/metrics.ts:50-56 | None iff the list is empty; otherwise at most every price and equal to some offering's price |
| Metrics.ProviderIdsCount | lib/metrics.ts:58-61 | the set of provider ids has at most as many elements as the list, at least one if the list is non-empty, and exactly as many iff the ids are pairwise distinct |
| Metrics.GetDistinctProviderCount | lib/metrics.ts:58-61 | 0 iff the list is empty, between 1 and the length otherwise, equal to the length iff provider ids are pairwise distinct |
| Metrics.ProviderOfferingsHaveOneProvider | lib/metrics.ts:58-61 | the offerings of one provider count at most one distinct provider |
| Metrics.GetReliabilityBadge | lib/metrics.ts:69-91 | tier t is labelled "Tier t" and shows 4 - t stars |
| HomePage.GetAvailabilityBadge | app/page.tsx:5-9 | High iff score >= 80, Medium iff 50 <= score < 80, Low iff score < 50, never N/A |
| HomePage.AvailabilityBadgeAgrees | app/page.tsx:5-9 | text and colour equal those of the shared badge for the same present score |
| HomePage.GetPerformanceIndicator | app/page.tsx:11-17 | always 1 to 5 bolts |
| HomePage.PerformanceIndicatorAgrees | app/page.tsx:11-17 | equals the shared performance indicator on every score |
| Samples.A100Scores | lib/gpu-data.ts:86-104 | the A100 80GB scores 28919/1590 (about 18.19) for performance, 1476800/28919 (about 51.07) for value at $0.89/h, one bolt, and a High badge at availability 90 |
| Samples.SampleJoin | lib/gpu-data.ts:643-652 | with a row for an unlisted provider beside the RunPod row, the joins keep only the RunPod offering, and an unknown GPU id gives no offerings |

## Left out

- Scoring.ValueScore: a zero performance score is a branch returning 0. In the source, dividing by zero gives 0 only for a positive price. A zero price gives NaN, and a negative price gives +Infinity. Neither can be expressed over reals.
- IEEE-754 rounding is not modelled: all arithmetic is exact over `real`. `Math.round`, `toFixed` and currency formatting belong to the pages and are left out too.
- Ranking.BestValueGPUs, Ranking.FastestGPUs: `limit` is a `nat`. For a negative limit, JavaScript `slice` counts from the end; that is not modelled. The default limit of 5 is not modelled either: callers always pass a limit.
- The engine's sort algorithm is not modelled: `Ranking.SortDesc` is an insertion sort. A stable sort under a consistent comparator has exactly one possible output, so only that output matters. NaN scores, which would make the comparator inconsistent, cannot occur over reals.
- The `Infinity` seed of the lowest-price fold is not modelled: `Metrics.GetLowestPrice` seeds it with the first price instead, which gives the same result because min(Infinity, x) = x.
- Two source fields are renamed because their names are Dafny keywords. The badges' `label` field is named `text`, and the provider's `type` field (types/index.ts:28) is named `kind`.
- The static catalog contents (lib/gpu-data.ts:4-999) are left out. The model takes any catalog as a parameter. Only one GPU record and one pricing row appear, in `Samples`.
- The chat API route (app/api/chat/route.ts) is left out: it is a network call to an external language-model service.
- The React pages and components are left out: they are rendering, hooks and UI state. Their inline sorts use locale-dependent `localeCompare`.
- The hand-maintained availability label of a pricing row is stored but never checked against its score, as in the source.
