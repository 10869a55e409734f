/**
 The two derived scores of an offering (lib/gpu-data.ts): a weighted
 performance score normalised against fixed reference maxima, and a value
 score that falls as the price per unit of performance rises, floored at 0.
 */
module Scoring {
  import opened Catalog

  /** Reference maxima: the largest VRAM (GB), fp16 TFLOPS and bandwidth (TB/s) in the catalog. */
  const MaxVram: real := 288.0
  const MaxFp16: real := 5300.0
  const MaxBandwidth: real := 8.0

  /** True when none of the three scored figures is negative. */
  predicate NonNegativeSpecs(gpu: GPU)
  {
    0.0 <= gpu.vram && 0.0 <= gpu.tflops.fp16 && 0.0 <= gpu.memoryBandwidth
  }

  /** True when each scored figure is at most its reference maximum. */
  predicate WithinReference(gpu: GPU)
  {
    gpu.vram <= MaxVram && gpu.tflops.fp16 <= MaxFp16 && gpu.memoryBandwidth <= MaxBandwidth
  }

  /** 30% VRAM, 40% fp16 compute, 30% memory bandwidth, each as a percentage of its reference maximum. */
  function PerformanceScore(gpu: GPU): (score: real)
    ensures NonNegativeSpecs(gpu) ==> 0.0 <= score
    ensures NonNegativeSpecs(gpu) && WithinReference(gpu) ==> score <= 100.0
  {
    var vramScore := gpu.vram / MaxVram * 100.0;
    var tflopsScore := gpu.tflops.fp16 / MaxFp16 * 100.0;
    var bandwidthScore := gpu.memoryBandwidth / MaxBandwidth * 100.0;
    vramScore * 0.3 + tflopsScore * 0.4 + bandwidthScore * 0.3
  }

  function Max(a: real, b: real): real
  {
    if a < b then b else a
  }

  /**
   100 minus ten times the hourly price per unit of performance, floored at 0.
   A zero performance score divides by zero in the source; the resulting
   infinite price/performance is floored to 0, which is the branch kept here.
   */
  function ValueScore(gpu: GPU, pricing: Pricing): (value: real)
    ensures 0.0 <= value
    ensures PerformanceScore(gpu) > 0.0 ==>
      (value == 0.0 <==> pricing.pricePerHour * 10.0 >= PerformanceScore(gpu))
    ensures PerformanceScore(gpu) > 0.0 && pricing.pricePerHour >= 0.0 ==> value <= 100.0
    ensures PerformanceScore(gpu) > 0.0 && value > 0.0 ==>
      value * PerformanceScore(gpu) == 100.0 * PerformanceScore(gpu) - 1000.0 * pricing.pricePerHour
  {
    var performance := PerformanceScore(gpu);
    if performance == 0.0 then 0.0
    else
      var pricePerformance := pricing.pricePerHour / (performance / 100.0);
      Max(0.0, 100.0 - pricePerformance * 10.0)
  }

  /** The score grows with each of VRAM, fp16 throughput and bandwidth. */
  lemma PerformanceMonotone(a: GPU, b: GPU)
    requires a.vram <= b.vram
    requires a.tflops.fp16 <= b.tflops.fp16
    requires a.memoryBandwidth <= b.memoryBandwidth
    ensures PerformanceScore(a) <= PerformanceScore(b)
  {
  }

  /** A GPU at exactly the reference maxima scores exactly 100. */
  lemma PerformanceAtReference(gpu: GPU)
    requires gpu.vram == MaxVram && gpu.tflops.fp16 == MaxFp16 && gpu.memoryBandwidth == MaxBandwidth
    ensures PerformanceScore(gpu) == 100.0
  {
  }

  /** The score is not clamped: a GPU beyond the reference maxima scores above 100. */
  lemma PerformanceNotClamped(gpu: GPU)
    requires NonNegativeSpecs(gpu)
    requires gpu.vram > MaxVram && gpu.tflops.fp16 >= MaxFp16 && gpu.memoryBandwidth >= MaxBandwidth
    ensures PerformanceScore(gpu) > 100.0
  {
  }

  /** For a GPU with positive performance, a higher hourly price never raises the value score. */
  lemma ValueAntitoneInPrice(gpu: GPU, cheap: Pricing, dear: Pricing)
    requires PerformanceScore(gpu) > 0.0
    requires cheap.pricePerHour <= dear.pricePerHour
    ensures ValueScore(gpu, dear) <= ValueScore(gpu, cheap)
  {
    var p := PerformanceScore(gpu);
    assert cheap.pricePerHour / (p / 100.0) <= dear.pricePerHour / (p / 100.0) by {
      DivMonotone(cheap.pricePerHour, dear.pricePerHour, p / 100.0);
    }
  }

  /** At a fixed non-negative price, a faster GPU never has a lower value score. */
  lemma ValueMonotoneInPerformance(slow: GPU, fast: GPU, pricing: Pricing)
    requires 0.0 < PerformanceScore(slow) <= PerformanceScore(fast)
    requires pricing.pricePerHour >= 0.0
    ensures ValueScore(slow, pricing) <= ValueScore(fast, pricing)
  {
    var ps, pf := PerformanceScore(slow), PerformanceScore(fast);
    assert pricing.pricePerHour / (pf / 100.0) <= pricing.pricePerHour / (ps / 100.0) by {
      DivAntitone(pricing.pricePerHour, ps / 100.0, pf / 100.0);
    }
  }

  lemma DivMonotone(x: real, y: real, d: real)
    requires d > 0.0 && x <= y
    ensures x / d <= y / d
  {
    assert y / d - x / d == (y - x) / d;
  }

  lemma DivAntitone(x: real, d: real, e: real)
    requires x >= 0.0 && 0.0 < d <= e
    ensures x / e <= x / d
  {
    assert x / d - x / e == x * (e - d) / (d * e);
  }

}
