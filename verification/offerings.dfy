/**
 Id lookup and the best-effort join of lib/gpu-data.ts: pricing rows are
 resolved against their GPU and provider, and a row whose GPU or provider id
 does not resolve is silently dropped.
 */
module Offerings {
  import opened Wrappers
  import opened Catalog
  import opened Scoring

  /** The first GPU whose id is `id`, if any. */
  function GPUById(gpus: seq<GPU>, id: string): (r: Option<GPU>)
    ensures r.None? <==> forall i :: 0 <= i < |gpus| ==> gpus[i].id != id
    ensures r.Some? ==> exists i :: 0 <= i < |gpus| && gpus[i] == r.value && FirstGPUMatch(gpus, id, i)
  {
    if |gpus| == 0 then None
    else if gpus[0].id == id then
      assert FirstGPUMatch(gpus, id, 0);
      Some(gpus[0])
    else
      var r := GPUById(gpus[1..], id);
      assert r.Some? ==> exists i :: 0 <= i < |gpus| && gpus[i] == r.value && FirstGPUMatch(gpus, id, i) by {
        if r.Some? {
          var i :| 0 <= i < |gpus[1..]| && gpus[1..][i] == r.value && FirstGPUMatch(gpus[1..], id, i);
          assert FirstGPUMatch(gpus, id, i + 1);
        }
      }
      r
  }

  /** Index `i` holds the earliest GPU with id `id`. */
  ghost predicate FirstGPUMatch(gpus: seq<GPU>, id: string, i: int)
  {
    0 <= i < |gpus| && gpus[i].id == id && forall j :: 0 <= j < i ==> gpus[j].id != id
  }

  /** The first provider whose id is `id`, if any. */
  function ProviderById(providers: seq<Provider>, id: string): (r: Option<Provider>)
    ensures r.None? <==> forall i :: 0 <= i < |providers| ==> providers[i].id != id
    ensures r.Some? ==>
      exists i :: 0 <= i < |providers| && providers[i] == r.value && FirstProviderMatch(providers, id, i)
  {
    if |providers| == 0 then None
    else if providers[0].id == id then
      assert FirstProviderMatch(providers, id, 0);
      Some(providers[0])
    else
      var r := ProviderById(providers[1..], id);
      assert r.Some? ==>
        exists i :: 0 <= i < |providers| && providers[i] == r.value && FirstProviderMatch(providers, id, i)
      by {
        if r.Some? {
          var i :| 0 <= i < |providers[1..]| && providers[1..][i] == r.value
            && FirstProviderMatch(providers[1..], id, i);
          assert FirstProviderMatch(providers, id, i + 1);
        }
      }
      r
  }

  /** Index `i` holds the earliest provider with id `id`. */
  ghost predicate FirstProviderMatch(providers: seq<Provider>, id: string, i: int)
  {
    0 <= i < |providers| && providers[i].id == id && forall j :: 0 <= j < i ==> providers[j].id != id
  }

  /** The pricing rows of one GPU, in catalog order. */
  function PricingForGPU(rows: seq<Pricing>, gpuId: string): (r: seq<Pricing>)
    ensures |r| <= |rows|
    ensures forall p :: p in r <==> p in rows && p.gpuId == gpuId
  {
    if |rows| == 0 then []
    else if rows[0].gpuId == gpuId then [rows[0]] + PricingForGPU(rows[1..], gpuId)
    else PricingForGPU(rows[1..], gpuId)
  }

  /** An offering built from a row and the records it resolved to, with both scores computed. */
  function MakeOffering(gpu: GPU, provider: Provider, pricing: Pricing): Offering
  {
    Offering(gpu, provider, pricing, PerformanceScore(gpu), ValueScore(gpu, pricing))
  }

  /** The offering's stored scores are the score functions of its own GPU and row. */
  ghost predicate WellScored(o: Offering)
  {
    o.performanceScore == PerformanceScore(o.gpu) && o.valueScore == ValueScore(o.gpu, o.pricing)
  }

  /**
   The offering is backed by the store: its row is a catalog row, and its GPU and
   provider are what the row's ids resolve to.
   */
  ghost predicate Resolved(store: Store, o: Offering)
  {
    && o.pricing in store.pricing
    && GPUById(store.gpus, o.pricing.gpuId) == Some(o.gpu)
    && ProviderById(store.providers, o.pricing.providerId) == Some(o.provider)
    && WellScored(o)
  }

  /** Both foreign keys of the row resolve. */
  predicate Resolves(store: Store, row: Pricing)
  {
    GPUById(store.gpus, row.gpuId).Some? && ProviderById(store.providers, row.providerId).Some?
  }

  /** The rows an offering list was built from, in order. */
  function Rows(offers: seq<Offering>): (r: seq<Pricing>)
    ensures |r| == |offers|
    ensures forall i :: 0 <= i < |offers| ==> r[i] == offers[i].pricing
  {
    if |offers| == 0 then [] else [offers[0].pricing] + Rows(offers[1..])
  }

  /** The rows whose GPU and provider both resolve, in order: the reference for what a join keeps. */
  function ResolvableRows(store: Store, rows: seq<Pricing>): (r: seq<Pricing>)
    ensures |r| <= |rows|
    ensures forall p :: p in r <==> p in rows && Resolves(store, p)
  {
    if |rows| == 0 then []
    else if Resolves(store, rows[0]) then [rows[0]] + ResolvableRows(store, rows[1..])
    else ResolvableRows(store, rows[1..])
  }

  /** The accumulation step of `getOfferingsForGPU`: resolve each row's provider, skip the unresolved. */
  function JoinForGPU(gpu: GPU, rows: seq<Pricing>, providers: seq<Provider>): (r: seq<Offering>)
    ensures |r| <= |rows|
    ensures forall o :: o in r ==>
      && o.gpu == gpu && o.pricing in rows && WellScored(o)
      && ProviderById(providers, o.pricing.providerId) == Some(o.provider)
  {
    if |rows| == 0 then []
    else match ProviderById(providers, rows[0].providerId)
      case None => JoinForGPU(gpu, rows[1..], providers)
      case Some(provider) => [MakeOffering(gpu, provider, rows[0])] + JoinForGPU(gpu, rows[1..], providers)
  }

  /** Every offering of one GPU; empty when the GPU id does not resolve. */
  function OfferingsForGPU(store: Store, gpuId: string): (r: seq<Offering>)
    ensures GPUById(store.gpus, gpuId).None? ==> r == []
    ensures forall o :: o in r ==>
      o.gpu.id == gpuId && o.pricing.gpuId == gpuId && o.provider.id == o.pricing.providerId && Resolved(store, o)
  {
    match GPUById(store.gpus, gpuId)
    case None => []
    case Some(gpu) => JoinForGPU(gpu, PricingForGPU(store.pricing, gpuId), store.providers)
  }

  /** The accumulation step of `getOfferingsForProvider`: keep the provider's rows whose GPU resolves. */
  function JoinForProvider(providerId: string, provider: Provider, rows: seq<Pricing>, gpus: seq<GPU>)
    : (r: seq<Offering>)
    ensures |r| <= |rows|
    ensures forall o :: o in r ==>
      && o.provider == provider && o.pricing in rows && o.pricing.providerId == providerId && WellScored(o)
      && GPUById(gpus, o.pricing.gpuId) == Some(o.gpu)
  {
    if |rows| == 0 then []
    else if rows[0].providerId != providerId then JoinForProvider(providerId, provider, rows[1..], gpus)
    else match GPUById(gpus, rows[0].gpuId)
      case None => JoinForProvider(providerId, provider, rows[1..], gpus)
      case Some(gpu) => [MakeOffering(gpu, provider, rows[0])] + JoinForProvider(providerId, provider, rows[1..], gpus)
  }

  /** Every offering of one provider; empty when the provider id does not resolve. */
  function OfferingsForProvider(store: Store, providerId: string): (r: seq<Offering>)
    ensures ProviderById(store.providers, providerId).None? ==> r == []
    ensures forall o :: o in r ==>
      o.provider.id == providerId && o.pricing.providerId == providerId && o.gpu.id == o.pricing.gpuId
      && Resolved(store, o)
  {
    match ProviderById(store.providers, providerId)
    case None => []
    case Some(provider) => JoinForProvider(providerId, provider, store.pricing, store.gpus)
  }

  /** The accumulation step shared by the two rankings: keep a row when both its ids resolve. */
  function Join(store: Store, rows: seq<Pricing>): (r: seq<Offering>)
    ensures |r| <= |rows|
    ensures forall o :: o in r ==>
      && o.pricing in rows && WellScored(o)
      && GPUById(store.gpus, o.pricing.gpuId) == Some(o.gpu)
      && ProviderById(store.providers, o.pricing.providerId) == Some(o.provider)
  {
    if |rows| == 0 then []
    else
      var gpu := GPUById(store.gpus, rows[0].gpuId);
      var provider := ProviderById(store.providers, rows[0].providerId);
      if gpu.None? || provider.None? then Join(store, rows[1..])
      else [MakeOffering(gpu.value, provider.value, rows[0])] + Join(store, rows[1..])
  }

  /** The whole catalog joined: one offering per resolvable pricing row. */
  function AllOfferings(store: Store): (r: seq<Offering>)
    ensures forall o :: o in r ==> Resolved(store, o)
  {
    Join(store, store.pricing)
  }

  /** The offerings whose row is for GPU `gpuId`, in order. */
  function WithGPU(offers: seq<Offering>, gpuId: string): seq<Offering>
  {
    if |offers| == 0 then []
    else if offers[0].pricing.gpuId == gpuId then [offers[0]] + WithGPU(offers[1..], gpuId)
    else WithGPU(offers[1..], gpuId)
  }

  /** The offerings whose row is for provider `providerId`, in order. */
  function WithProvider(offers: seq<Offering>, providerId: string): seq<Offering>
  {
    if |offers| == 0 then []
    else if offers[0].pricing.providerId == providerId then [offers[0]] + WithProvider(offers[1..], providerId)
    else WithProvider(offers[1..], providerId)
  }

  // ----- The join keeps exactly the resolvable rows, in catalog order -----

  lemma {:induction false} JoinKeepsResolvableRows(store: Store, rows: seq<Pricing>)
    ensures Rows(Join(store, rows)) == ResolvableRows(store, rows)
  {
    if |rows| > 0 {
      JoinKeepsResolvableRows(store, rows[1..]);
    }
  }

  /** The global offering list has one entry per resolvable catalog row, in catalog order. */
  lemma AllOfferingsRows(store: Store)
    ensures Rows(AllOfferings(store)) == ResolvableRows(store, store.pricing)
    ensures |AllOfferings(store)| == |ResolvableRows(store, store.pricing)|
  {
    JoinKeepsResolvableRows(store, store.pricing);
  }

  /** Filtering the pricing rows distributes over concatenation: catalog order is kept. */
  lemma {:induction false} PricingForGPUConcat(a: seq<Pricing>, b: seq<Pricing>, gpuId: string)
    ensures PricingForGPU(a + b, gpuId) == PricingForGPU(a, gpuId) + PricingForGPU(b, gpuId)
  {
    if |a| > 0 {
      assert (a + b)[1..] == a[1..] + b;
      PricingForGPUConcat(a[1..], b, gpuId);
    } else {
      assert a + b == b;
    }
  }

  // ----- Per-GPU and per-provider joins are restrictions of the global join -----

  lemma {:induction false} JoinWithGPU(store: Store, rows: seq<Pricing>, gpuId: string)
    ensures WithGPU(Join(store, rows), gpuId) ==
      match GPUById(store.gpus, gpuId)
      case None => []
      case Some(gpu) => JoinForGPU(gpu, PricingForGPU(rows, gpuId), store.providers)
  {
    if |rows| > 0 {
      JoinWithGPU(store, rows[1..], gpuId);
      var rest := Join(store, rows[1..]);
      var gpu := GPUById(store.gpus, rows[0].gpuId);
      var provider := ProviderById(store.providers, rows[0].providerId);
      if !(gpu.None? || provider.None?) {
        var o := MakeOffering(gpu.value, provider.value, rows[0]);
        assert ([o] + rest)[1..] == rest;
      }
      if rows[0].gpuId == gpuId {
        var pr := PricingForGPU(rows[1..], gpuId);
        assert ([rows[0]] + pr)[1..] == pr;
      }
    }
  }

  /** The offerings of a GPU are exactly the global offerings for that GPU, in catalog order. */
  lemma OfferingsForGPUIsRestriction(store: Store, gpuId: string)
    ensures OfferingsForGPU(store, gpuId) == WithGPU(AllOfferings(store), gpuId)
  {
    JoinWithGPU(store, store.pricing, gpuId);
  }

  lemma {:induction false} JoinWithProvider(store: Store, rows: seq<Pricing>, providerId: string)
    ensures WithProvider(Join(store, rows), providerId) ==
      match ProviderById(store.providers, providerId)
      case None => []
      case Some(provider) => JoinForProvider(providerId, provider, rows, store.gpus)
  {
    if |rows| > 0 {
      JoinWithProvider(store, rows[1..], providerId);
      var rest := Join(store, rows[1..]);
      var gpu := GPUById(store.gpus, rows[0].gpuId);
      var provider := ProviderById(store.providers, rows[0].providerId);
      if !(gpu.None? || provider.None?) {
        var o := MakeOffering(gpu.value, provider.value, rows[0]);
        assert ([o] + rest)[1..] == rest;
      }
    }
  }

  /** The offerings of a provider are exactly the global offerings for that provider, in catalog order. */
  lemma OfferingsForProviderIsRestriction(store: Store, providerId: string)
    ensures OfferingsForProvider(store, providerId) == WithProvider(AllOfferings(store), providerId)
  {
    JoinWithProvider(store, store.pricing, providerId);
  }

  // ----- Which rows the per-GPU and per-provider joins keep -----

  lemma {:induction false} JoinForGPURows(store: Store, gpu: GPU, rows: seq<Pricing>)
    requires GPUById(store.gpus, gpu.id) == Some(gpu)
    requires forall p :: p in rows ==> p.gpuId == gpu.id
    ensures Rows(JoinForGPU(gpu, rows, store.providers)) == ResolvableRows(store, rows)
  {
    if |rows| > 0 {
      assert rows[0] in rows;
      assert forall p :: p in rows[1..] ==> p in rows;
      JoinForGPURows(store, gpu, rows[1..]);
    }
  }

  /**
   When the GPU resolves, its offerings come from exactly those of its pricing
   rows whose provider resolves, in catalog order.
   */
  lemma OfferingsForGPURows(store: Store, gpuId: string)
    requires GPUById(store.gpus, gpuId).Some?
    ensures Rows(OfferingsForGPU(store, gpuId)) == ResolvableRows(store, PricingForGPU(store.pricing, gpuId))
    ensures |OfferingsForGPU(store, gpuId)| == |ResolvableRows(store, PricingForGPU(store.pricing, gpuId))|
  {
    var gpu := GPUById(store.gpus, gpuId).value;
    JoinForGPURows(store, gpu, PricingForGPU(store.pricing, gpuId));
  }

}
