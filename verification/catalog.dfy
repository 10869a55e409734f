/**
 The record shapes of the catalog (types/index.ts): GPUs, cloud providers,
 pricing rows joining the two, and the derived offering view. Every numeric
 field that TypeScript types as `number` is a `real` here. The provider's
 `type` field is called `kind`, because `type` is a Dafny keyword.
 */
module Catalog {
  import opened Wrappers

  datatype Vendor = NVIDIA | AMD | Google | Intel | AWS

  /** Throughput in teraFLOPS per numeric precision; fp16 and fp32 are mandatory. */
  datatype Tflops = Tflops(
    fp4: Option<real>,
    fp8: Option<real>,
    fp16: real,
    fp32: real,
    fp64: Option<real>)

  datatype GPU = GPU(
    id: string,
    name: string,
    generation: string,
    vendor: Vendor,
    vram: real,             // GB
    vramType: string,
    tflops: Tflops,
    memoryBandwidth: real,  // TB/s
    interconnect: Option<string>,
    powerDraw: real,        // watts
    releaseYear: real,
    features: seq<string>,
    architecture: string)

  datatype ProviderType = Hyperscaler | Specialized | Marketplace | Emerging

  /** 1 is the most reliable tier, 3 the least. */
  type ReliabilityTier = t: int | 1 <= t <= 3 witness 1

  datatype SupportLevel = Enterprise | Standard | Community

  datatype Provider = Provider(
    id: string,
    name: string,
    kind: ProviderType,
    website: string,
    regions: seq<string>,
    reliabilityTier: ReliabilityTier,
    uptime: real,           // percentage
    features: seq<string>,
    supportLevel: SupportLevel)

  datatype PriceType = OnDemand | Spot | Reserved1yr | Reserved3yr

  /** The hand-maintained availability label; `availabilityScore` is authoritative. */
  datatype Availability = High | Medium | Low | Waitlist

  /** One observed price point of one GPU at one provider. */
  datatype Pricing = Pricing(
    gpuId: string,
    providerId: string,
    pricePerHour: real,     // USD
    priceType: PriceType,
    availability: Availability,
    availabilityScore: real,
    region: string,
    lastUpdated: string,
    minCommitment: Option<string>)

  /** A pricing row resolved against its GPU and provider, with the two derived scores. */
  datatype Offering = Offering(
    gpu: GPU,
    provider: Provider,
    pricing: Pricing,
    performanceScore: real,
    valueScore: real)

  /** The static catalog, taken as a parameter instead of the module-level arrays. */
  datatype Store = Store(gpus: seq<GPU>, providers: seq<Provider>, pricing: seq<Pricing>)

}
