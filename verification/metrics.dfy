/**
 Presentation banding and aggregates over offering lists (lib/metrics.ts):
 the availability badge, the performance indicator, the reliability badge,
 and the mean availability, lowest price and distinct provider count.
 */
module Metrics {
  import opened Wrappers
  import opened Catalog
  import opened Offerings

  /** The source's `label` field is called `text` here: `label` is a Dafny keyword. */
  datatype AvailabilityBadge = AvailabilityBadge(text: string, className: string)

  const NotAvailableBadge := AvailabilityBadge("❌ N/A", "bg-gray-500/20 text-gray-400 border-gray-500/30")
  const HighBadge := AvailabilityBadge("✅ High", "bg-green-500/20 text-green-400 border-green-500/30")
  const MediumBadge := AvailabilityBadge("⚠️ Medium", "bg-yellow-500/20 text-yellow-400 border-yellow-500/30")
  const LowBadge := AvailabilityBadge("❌ Low", "bg-red-500/20 text-red-400 border-red-500/30")

  /** Four bands: no score, at least 80, from 50 below 80, below 50. */
  function GetAvailabilityBadge(score: Option<real>): (b: AvailabilityBadge)
    ensures b == NotAvailableBadge <==> score.None?
    ensures b == HighBadge <==> score.Some? && score.value >= 80.0
    ensures b == MediumBadge <==> score.Some? && 50.0 <= score.value < 80.0
    ensures b == LowBadge <==> score.Some? && score.value < 50.0
  {
    if score.None? then NotAvailableBadge
    else if score.value >= 80.0 then HighBadge
    else if score.value >= 50.0 then MediumBadge
    else LowBadge
  }

  /** Ordinal of a badge, N/A lowest. */
  function BadgeRank(b: AvailabilityBadge): int
  {
    if b == HighBadge then 3 else if b == MediumBadge then 2 else if b == LowBadge then 1 else 0
  }

  /** A higher score never yields a lower band. */
  lemma AvailabilityBadgeMonotone(a: real, b: real)
    requires a <= b
    ensures BadgeRank(GetAvailabilityBadge(Some(a))) <= BadgeRank(GetAvailabilityBadge(Some(b)))
  {
  }

  /** Each band includes its lower boundary. */
  lemma AvailabilityBoundaries()
    ensures GetAvailabilityBadge(Some(80.0)) == HighBadge
    ensures GetAvailabilityBadge(Some(79.0)) == MediumBadge
    ensures GetAvailabilityBadge(Some(50.0)) == MediumBadge
    ensures GetAvailabilityBadge(Some(49.0)) == LowBadge
  {
  }

  const Bolt: char := '⚡'

  /** One to five bolts: one more for each of the thresholds 20, 40, 60 and 80 the score reaches. */
  function GetPerformanceIndicator(score: real): (r: string)
    ensures 1 <= |r| <= 5
    ensures forall i :: 0 <= i < |r| ==> r[i] == Bolt
    ensures |r| > 1 ==> score >= 20.0 * (|r| - 1) as real
    ensures |r| < 5 ==> score < 20.0 * |r| as real
  {
    if score >= 80.0 then "⚡⚡⚡⚡⚡"
    else if score >= 60.0 then "⚡⚡⚡⚡"
    else if score >= 40.0 then "⚡⚡⚡"
    else if score >= 20.0 then "⚡⚡"
    else "⚡"
  }

  /** A higher score never yields fewer bolts. */
  lemma PerformanceIndicatorMonotone(a: real, b: real)
    requires a <= b
    ensures |GetPerformanceIndicator(a)| <= |GetPerformanceIndicator(b)|
  {
  }

  /** The sum of the availability scores. */
  function TotalAvailability(offers: seq<Offering>): real
  {
    if |offers| == 0 then 0.0 else offers[0].pricing.availabilityScore + TotalAvailability(offers[1..])
  }

  lemma {:induction false} TotalAbove(offers: seq<Offering>, m: real)
    requires |offers| > 0
    requires forall i :: 0 <= i < |offers| ==> offers[i].pricing.availabilityScore > m
    ensures TotalAvailability(offers) > |offers| as real * m
  {
    if |offers| > 1 {
      TotalAbove(offers[1..], m);
    }
  }

  lemma {:induction false} TotalBelow(offers: seq<Offering>, m: real)
    requires |offers| > 0
    requires forall i :: 0 <= i < |offers| ==> offers[i].pricing.availabilityScore < m
    ensures TotalAvailability(offers) < |offers| as real * m
  {
    if |offers| > 1 {
      TotalBelow(offers[1..], m);
    }
  }

  /** The mean availability score; absent for an empty list. */
  function CalculateAverageAvailability(offers: seq<Offering>): (r: Option<real>)
    ensures r.None? <==> |offers| == 0
    ensures r.Some? ==> r.value * |offers| as real == TotalAvailability(offers)
    ensures r.Some? ==>
      exists i :: 0 <= i < |offers| && offers[i].pricing.availabilityScore <= r.value
    ensures r.Some? ==>
      exists i :: 0 <= i < |offers| && r.value <= offers[i].pricing.availabilityScore
  {
    if |offers| == 0 then None
    else
      var mean := TotalAvailability(offers) / |offers| as real;
      assert exists i :: 0 <= i < |offers| && offers[i].pricing.availabilityScore <= mean by {
        if forall i :: 0 <= i < |offers| ==> offers[i].pricing.availabilityScore > mean {
          TotalAbove(offers, mean);
        }
      }
      assert exists i :: 0 <= i < |offers| && mean <= offers[i].pricing.availabilityScore by {
        if forall i :: 0 <= i < |offers| ==> offers[i].pricing.availabilityScore < mean {
          TotalBelow(offers, mean);
        }
      }
      Some(mean)
  }

  /** The left fold `Math.min(acc, price)` over the remaining offerings. */
  function MinPriceFrom(acc: real, offers: seq<Offering>): (m: real)
    ensures m <= acc
    ensures forall i :: 0 <= i < |offers| ==> m <= offers[i].pricing.pricePerHour
    ensures m == acc || exists i :: 0 <= i < |offers| && offers[i].pricing.pricePerHour == m
    decreases |offers|
  {
    if |offers| == 0 then acc
    else
      var price := offers[0].pricing.pricePerHour;
      var m := MinPriceFrom(if price < acc then price else acc, offers[1..]);
      assert m == price || m == acc || exists i :: 0 <= i < |offers| && offers[i].pricing.pricePerHour == m by {
        if m != price && m != acc {
          var i :| 0 <= i < |offers[1..]| && offers[1..][i].pricing.pricePerHour == m;
          assert offers[i + 1].pricing.pricePerHour == m;
        }
      }
      m
  }

  /** The lowest hourly price; absent for an empty list. */
  function GetLowestPrice(offers: seq<Offering>): (r: Option<real>)
    ensures r.None? <==> |offers| == 0
    ensures r.Some? ==> forall i :: 0 <= i < |offers| ==> r.value <= offers[i].pricing.pricePerHour
    ensures r.Some? ==> exists i :: 0 <= i < |offers| && offers[i].pricing.pricePerHour == r.value
  {
    if |offers| == 0 then None
    else Some(MinPriceFrom(offers[0].pricing.pricePerHour, offers[1..]))
  }

  /** The set of provider ids appearing in the list. */
  function ProviderIds(offers: seq<Offering>): set<string>
  {
    set o | o in offers :: o.provider.id
  }

  ghost predicate DistinctProviders(offers: seq<Offering>)
  {
    forall i, j :: 0 <= i < j < |offers| ==> offers[i].provider.id != offers[j].provider.id
  }

  lemma ProviderIdsCons(offers: seq<Offering>)
    requires |offers| > 0
    ensures ProviderIds(offers) == {offers[0].provider.id} + ProviderIds(offers[1..])
  {
    assert offers == [offers[0]] + offers[1..];
  }

  /** A list has distinct provider ids iff its tail has and the head's id is not in the tail. */
  lemma DistinctProvidersCons(offers: seq<Offering>)
    requires |offers| > 0
    ensures DistinctProviders(offers) <==>
      DistinctProviders(offers[1..]) && offers[0].provider.id !in ProviderIds(offers[1..])
  {
    var rest := offers[1..];
    if offers[0].provider.id in ProviderIds(rest) {
      var o :| o in rest && o.provider.id == offers[0].provider.id;
      var j :| 0 <= j < |rest| && rest[j] == o;
      assert offers[0].provider.id == offers[j + 1].provider.id;
    }
    if DistinctProviders(offers) {
      forall i, j | 0 <= i < j < |rest| ensures rest[i].provider.id != rest[j].provider.id {
        assert rest[i] == offers[i + 1] && rest[j] == offers[j + 1];
      }
    }
    if DistinctProviders(rest) && offers[0].provider.id !in ProviderIds(rest) {
      forall i, j | 0 <= i < j < |offers| ensures offers[i].provider.id != offers[j].provider.id {
        if i == 0 {
          assert offers[j] in rest;
        } else {
          assert offers[i] == rest[i - 1] && offers[j] == rest[j - 1];
        }
      }
    }
  }

  lemma {:induction false} ProviderIdsCount(offers: seq<Offering>)
    ensures |ProviderIds(offers)| <= |offers|
    ensures |offers| > 0 ==> |ProviderIds(offers)| >= 1
    ensures |ProviderIds(offers)| == |offers| <==> DistinctProviders(offers)
  {
    if |offers| > 0 {
      ProviderIdsCons(offers);
      DistinctProvidersCons(offers);
      ProviderIdsCount(offers[1..]);
    } else {
      assert ProviderIds(offers) == {};
    }
  }

  /** The number of distinct provider ids among the offerings. */
  function GetDistinctProviderCount(offers: seq<Offering>): (n: nat)
    ensures n == 0 <==> |offers| == 0
    ensures n <= |offers|
    ensures n == |offers| <==> DistinctProviders(offers)
    ensures forall o :: o in offers ==> n >= 1
  {
    ProviderIdsCount(offers);
    |ProviderIds(offers)|
  }

  /** The offerings of one provider name at most one distinct provider. */
  lemma ProviderOfferingsHaveOneProvider(store: Store, providerId: string)
    ensures GetDistinctProviderCount(OfferingsForProvider(store, providerId)) <= 1
  {
    var offers := OfferingsForProvider(store, providerId);
    if |offers| > 0 {
      assert offers[0] in offers;
      assert ProviderIds(offers) == {providerId};
    } else {
      assert ProviderIds(offers) == {};
    }
  }

  datatype ReliabilityBadge = ReliabilityBadge(text: string, className: string, icon: string)

  const Star: char := '⭐'

  /** Tier t reads "Tier t" with 4 - t stars; tier 1 is the most reliable. */
  function GetReliabilityBadge(tier: ReliabilityTier): (b: ReliabilityBadge)
    ensures b.text == "Tier " + [('0' as int + tier) as char]
    ensures |b.icon| == 4 - tier
    ensures forall i :: 0 <= i < |b.icon| ==> b.icon[i] == Star
  {
    if tier == 1 then
      ReliabilityBadge("Tier 1", "bg-green-500/20 text-green-400 border-green-500/30", "⭐⭐⭐")
    else if tier == 2 then
      ReliabilityBadge("Tier 2", "bg-gray-500/20 text-gray-300 border-gray-500/30", "⭐⭐")
    else
      ReliabilityBadge("Tier 3", "bg-yellow-500/20 text-yellow-400 border-yellow-500/30", "⭐")
  }

}
