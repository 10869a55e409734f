/**
 A one-GPU, two-provider catalog built from the A100 80GB record and its
 $0.89 on-demand RunPod row (lib/gpu-data.ts), plus a row whose provider is
 not in the catalog, used to pin the scores and the join to concrete values.
 */
module Samples {
  import opened Wrappers
  import opened Catalog
  import opened Scoring
  import opened Offerings
  import opened Ranking
  import Metrics

  const A100: GPU := GPU(
    "nvidia-a100-80gb", "A100 80GB", "Ampere", NVIDIA, 80.0, "HBM2e",
    Tflops(None, None, 312.0, 19.5, Some(9.7)), 2.0, Some("NVLink 3 (600GB/s)"),
    400.0, 2020.0, ["MIG capable", "Mature ecosystem", "Workhorse GPU", "Proven reliability"], "GA100")

  const RunPod: Provider := Provider(
    "runpod", "RunPod", Specialized, "https://runpod.io", ["US", "EU", "APAC"], 2, 99.5,
    ["Spot instances", "Community marketplace", "Kubernetes", "Flexible"], Community)

  const RunPodRow: Pricing := Pricing(
    "nvidia-a100-80gb", "runpod", 0.89, OnDemand, High, 90.0, "US-West", "2025-10-14", None)

  /** A row for a provider the catalog does not list. */
  const OrphanRow: Pricing := Pricing(
    "nvidia-a100-80gb", "lambda-labs", 1.10, OnDemand, High, 95.0, "US-East", "2025-10-14", None)

  const SampleStore: Store := Store([A100], [RunPod], [OrphanRow, RunPodRow])

  /** The A100 scores about 18.19 for performance and about 51.07 for value at $0.89/h. */
  lemma A100Scores()
    ensures PerformanceScore(A100) == 28919.0 / 1590.0
    ensures ValueScore(A100, RunPodRow) == 1476800.0 / 28919.0
    ensures Metrics.GetPerformanceIndicator(PerformanceScore(A100)) == "⚡"
    ensures Metrics.GetAvailabilityBadge(Some(RunPodRow.availabilityScore)) == Metrics.HighBadge
  {
  }

  /** The orphan row is dropped; the RunPod row becomes the only offering. */
  lemma SampleJoin()
    ensures OfferingsForGPU(SampleStore, "nvidia-a100-80gb") == [MakeOffering(A100, RunPod, RunPodRow)]
    ensures OfferingsForGPU(SampleStore, "nvidia-h100") == []
    ensures OfferingsForProvider(SampleStore, "runpod") == [MakeOffering(A100, RunPod, RunPodRow)]
    ensures BestValueGPUs(SampleStore, 6) == [MakeOffering(A100, RunPod, RunPodRow)]
  {
    var rows := SampleStore.pricing;
    var offer := MakeOffering(A100, RunPod, RunPodRow);
    assert rows[1..] == [RunPodRow] && rows[1..][1..] == [];
    assert GPUById(SampleStore.gpus, "nvidia-h100") == None;
    assert GPUById(SampleStore.gpus, "nvidia-a100-80gb") == Some(A100);
    assert ProviderById(SampleStore.providers, "lambda-labs") == None;
    assert ProviderById(SampleStore.providers, "runpod") == Some(RunPod);
    assert PricingForGPU(rows, "nvidia-a100-80gb") == rows;
    assert JoinForGPU(A100, [RunPodRow], SampleStore.providers) == [offer];
    assert JoinForProvider("runpod", RunPod, [RunPodRow], SampleStore.gpus) == [offer];
    assert Join(SampleStore, [RunPodRow]) == [offer] + Join(SampleStore, []);
    assert Join(SampleStore, rows) == Join(SampleStore, [RunPodRow]);
    assert AllOfferings(SampleStore) == [offer];
    assert SortDesc(ByValue, [offer]) == [offer] by {
      assert [offer][1..] == [];
    }
  }

}
