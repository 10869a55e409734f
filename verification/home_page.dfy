/**
 The two local helpers of the home page (app/page.tsx), which duplicate the
 availability badge and the performance indicator of the metrics module.
 The badge here takes a plain number, so it has no N/A band.
 */
module HomePage {
  import opened Wrappers
  import Metrics

  datatype Badge = Badge(text: string, color: string)

  /** High from 80, Medium from 50, Low below; never N/A. */
  function GetAvailabilityBadge(score: real): (b: Badge)
    ensures b.text == "✅ High" <==> score >= 80.0
    ensures b.text == "⚠️ Medium" <==> 50.0 <= score < 80.0
    ensures b.text == "❌ Low" <==> score < 50.0
    ensures b.text != "❌ N/A"
  {
    if score >= 80.0 then Badge("✅ High", "bg-green-500/20 text-green-400 border-green-500/30")
    else if score >= 50.0 then Badge("⚠️ Medium", "bg-yellow-500/20 text-yellow-400 border-yellow-500/30")
    else Badge("❌ Low", "bg-red-500/20 text-red-400 border-red-500/30")
  }

  /** The page's badge shows the same text and colour as the shared badge of a present score. */
  lemma AvailabilityBadgeAgrees(score: real)
    ensures GetAvailabilityBadge(score).text == Metrics.GetAvailabilityBadge(Some(score)).text
    ensures GetAvailabilityBadge(score).color == Metrics.GetAvailabilityBadge(Some(score)).className
  {
  }

  /** One to five bolts at thresholds 20, 40, 60 and 80. */
  function GetPerformanceIndicator(score: real): (r: string)
    ensures 1 <= |r| <= 5
    ensures forall i :: 0 <= i < |r| ==> r[i] == Metrics.Bolt
  {
    if score >= 80.0 then "⚡⚡⚡⚡⚡"
    else if score >= 60.0 then "⚡⚡⚡⚡"
    else if score >= 40.0 then "⚡⚡⚡"
    else if score >= 20.0 then "⚡⚡"
    else "⚡"
  }

  /** The page's indicator equals the shared one on every score. */
  lemma PerformanceIndicatorAgrees(score: real)
    ensures GetPerformanceIndicator(score) == Metrics.GetPerformanceIndicator(score)
  {
  }

}
