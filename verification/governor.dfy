/**
 The Governor engine: from traffic congestion, kitchen prep variance and the
 number of active riders it derives a system stress score, three delivery ETAs
 and the decision whether Green-Route multi-cart routing stays enabled.

 Stress is a multiple of 0.05 for integer inputs, so it is kept exactly as an
 integer scaled by 20: `Stress20 == 20 * stress`, and the threshold of 80 becomes
 1600. ETAs are whole minutes obtained by truncating an exact quotient.
 */
module GovernorEngine {
  import opened TruncArith

  /** Minutes every delivery takes before traffic and riders are accounted for. */
  const BaseTime: int := 20
  /** The stress threshold (80) scaled by 20. */
  const Threshold20: int := 1600
  /** The upper clamp of stress (100) scaled by 20. */
  const MaxStress20: int := 2000

  /** Outcome of the governor: routing on with its ETA and minutes saved, or off. */
  datatype Route = Enabled(eta: int, delta: int) | Disabled

  /** The ranges the dashboard's sliders allow. */
  predicate OnSliders(traffic: int, variance: int, riders: int) {
    1 <= traffic <= 10 && 0 <= variance <= 45 && 10 <= riders <= 200
  }

  function Min(x: int, y: int): int { if x <= y then x else y }
  function Max(x: int, y: int): int { if x >= y then x else y }

  /** `traffic * 6 + variance * 1.5 - riders * 0.15`, scaled by 20. */
  function BaseStress20(traffic: int, variance: int, riders: int): int {
    120 * traffic + 30 * variance - 3 * riders
  }

  /** The base stress clamped to [0, 100], scaled by 20. */
  function SystemStress20(traffic: int, variance: int, riders: int): (s: int)
    ensures 0 <= s <= MaxStress20
    ensures 0 <= BaseStress20(traffic, variance, riders) <= MaxStress20 ==> s == BaseStress20(traffic, variance, riders)
    ensures BaseStress20(traffic, variance, riders) < 0 ==> s == 0
    ensures BaseStress20(traffic, variance, riders) > MaxStress20 ==> s == MaxStress20
  {
    Max(0, Min(MaxStress20, BaseStress20(traffic, variance, riders)))
  }

  /** `int(20 + traffic * 1.5 - riders * 0.05)`: the exact value is (400 + 30 * traffic - riders) / 20. */
  function SingleOrderEta(traffic: int, riders: int): (eta: int)
    ensures IsTruncQuotient(eta, 20 * BaseTime + 30 * traffic - riders, 20)
  {
    TruncDiv(20 * BaseTime + 30 * traffic - riders, 20)
  }

  /** The single-order ETA plus the whole kitchen variance. */
  function UnrestrictedEta(traffic: int, variance: int, riders: int): int {
    SingleOrderEta(traffic, riders) + variance
  }

  /** `int(single + variance * 0.2)`: the exact value is (5 * single + variance) / 5. */
  function GreenRouteEta(traffic: int, variance: int, riders: int): (eta: int)
    ensures IsTruncQuotient(eta, 5 * SingleOrderEta(traffic, riders) + variance, 5)
  {
    TruncDiv(5 * SingleOrderEta(traffic, riders) + variance, 5)
  }

  /**
   The threshold gate: above a stress of 80 routing is disabled; otherwise the
   displayed ETA is the green-route one and the delta is the saving against an
   unrestricted multi-cart.
   */
  function Governor(traffic: int, variance: int, riders: int): (r: Route)
    ensures r.Disabled? <==> SystemStress20(traffic, variance, riders) > Threshold20
    ensures r.Enabled? ==> r.eta == GreenRouteEta(traffic, variance, riders)
    ensures r.Enabled? ==> r.eta + r.delta == UnrestrictedEta(traffic, variance, riders)
  {
    if SystemStress20(traffic, variance, riders) > Threshold20 then Disabled
    else
      var green := GreenRouteEta(traffic, variance, riders);
      Enabled(green, UnrestrictedEta(traffic, variance, riders) - green)
  }

  // ---------------------------------------------------------------------------
  // Stress and the gate

  /** Clamping never changes the outcome of the threshold test. */
  lemma GateOnBaseStress(traffic: int, variance: int, riders: int)
    ensures Governor(traffic, variance, riders).Disabled? <==> BaseStress20(traffic, variance, riders) > Threshold20
  {
  }

  /** Base stress is always a multiple of 0.15, so it never equals the threshold 80 exactly. */
  lemma StressNeverAtThreshold(traffic: int, variance: int, riders: int)
    ensures BaseStress20(traffic, variance, riders) % 3 == 0
    ensures SystemStress20(traffic, variance, riders) != Threshold20
  {
    assert BaseStress20(traffic, variance, riders) == 3 * (40 * traffic + 10 * variance - riders);
  }

  /** The comparison is strict: 79.95 keeps routing on, 80.1 turns it off. */
  lemma ThresholdBoundary()
    ensures SystemStress20(10, 15, 17) == 1599 && Governor(10, 15, 17).Enabled?
    ensures SystemStress20(10, 15, 16) == 1602 && Governor(10, 15, 16).Disabled?
  {
  }

  /** More riders never raise stress and never disable routing; base stress drops strictly. */
  lemma MoreRidersLowerStress(traffic: int, variance: int, riders: int, more: int)
    requires riders < more
    ensures BaseStress20(traffic, variance, more) < BaseStress20(traffic, variance, riders)
    ensures SystemStress20(traffic, variance, more) <= SystemStress20(traffic, variance, riders)
    ensures Governor(traffic, variance, riders).Enabled? ==> Governor(traffic, variance, more).Enabled?
  {
  }

  /** Clamped stress does not always drop strictly: at the top of the scale it stays at 100. */
  lemma SaturatedStressIgnoresRiders()
    ensures BaseStress20(10, 45, 10) == 2520 && BaseStress20(10, 45, 11) == 2517
    ensures SystemStress20(10, 45, 10) == SystemStress20(10, 45, 11) == MaxStress20
  {
  }

  // ---------------------------------------------------------------------------
  // ETAs

  /** More riders never make a single order slower. */
  lemma MoreRidersFasterSingleOrder(traffic: int, riders: int, more: int)
    requires riders <= more
    ensures SingleOrderEta(traffic, more) <= SingleOrderEta(traffic, riders)
  {
    TruncDivMonotone(20 * BaseTime + 30 * traffic - more, 20 * BaseTime + 30 * traffic - riders, 20);
  }

  /** Because of truncation, one more rider does not always save a minute: 22.5 and 22.45 both give 22. */
  lemma SingleOrderEtaNotStrict()
    ensures SingleOrderEta(5, 100) == SingleOrderEta(5, 101) == 22
  {
  }

  /**
   With a non-negative variance the green route lies between a single order and an
   unrestricted multi-cart, so the reported saving is never negative.
   */
  lemma EtaOrdering(traffic: int, variance: int, riders: int)
    requires variance >= 0
    ensures UnrestrictedEta(traffic, variance, riders) == SingleOrderEta(traffic, riders) + variance
    ensures SingleOrderEta(traffic, riders) <= GreenRouteEta(traffic, variance, riders) <= UnrestrictedEta(traffic, variance, riders)
    ensures Governor(traffic, variance, riders).Enabled? ==> Governor(traffic, variance, riders).delta >= 0
  {
    var s := SingleOrderEta(traffic, riders);
    TruncQuotientUnique(TruncDiv(5 * s, 5), s, 5 * s, 5);
    TruncDivMonotone(5 * s, 5 * s + variance, 5);
    TruncQuotientUnique(TruncDiv(5 * s + 5 * variance, 5), s + variance, 5 * s + 5 * variance, 5);
    TruncDivMonotone(5 * s + variance, 5 * s + 5 * variance, 5);
  }

  /** When nothing is negative the green route adds exactly a fifth of the variance, rounded down. */
  lemma GreenRouteAddsFifth(traffic: int, variance: int, riders: int)
    requires variance >= 0 && SingleOrderEta(traffic, riders) >= 0
    ensures GreenRouteEta(traffic, variance, riders) == SingleOrderEta(traffic, riders) + variance / 5
    ensures Governor(traffic, variance, riders).Enabled? ==> Governor(traffic, variance, riders).delta == variance - variance / 5
  {
    TruncDivAddMultiple(SingleOrderEta(traffic, riders), variance, 5);
  }

  /** On the sliders every ETA is a positive number of minutes within these bounds. */
  lemma EtaRangeOnSliders(traffic: int, variance: int, riders: int)
    requires OnSliders(traffic, variance, riders)
    ensures 11 <= SingleOrderEta(traffic, riders) <= 34
    ensures 11 <= GreenRouteEta(traffic, variance, riders) <= 43
    ensures 11 <= UnrestrictedEta(traffic, variance, riders) <= 79
  {
    TruncDivMonotone(20 * BaseTime + 30 * 1 - 200, 20 * BaseTime + 30 * traffic - riders, 20);
    TruncDivMonotone(20 * BaseTime + 30 * traffic - riders, 20 * BaseTime + 30 * 10 - 10, 20);
    GreenRouteAddsFifth(traffic, variance, riders);
  }

  /** The cast rounds toward zero, not down: an exact -1.5 minutes becomes -1. */
  lemma EtaTruncatesTowardZero()
    ensures SingleOrderEta(0, 430) == -1
    ensures GreenRouteEta(0, 2, 430) == 0
  {
  }

  // ---------------------------------------------------------------------------
  // Worked examples

  /** The sliders' defaults (traffic 5, variance 15, riders 100): stress 37.5, ETAs 22 / 37 / 25, 12 minutes saved. */
  lemma DefaultSliders()
    ensures SystemStress20(5, 15, 100) == 750
    ensures SingleOrderEta(5, 100) == 22
    ensures UnrestrictedEta(5, 15, 100) == 37
    ensures GreenRouteEta(5, 15, 100) == 25
    ensures Governor(5, 15, 100) == Enabled(25, 12)
  {
  }

  /** Gridlock (traffic 10, variance 45, riders 10): base stress 126 is clamped to 100 and routing is disabled. */
  lemma Overload()
    ensures BaseStress20(10, 45, 10) == 2520
    ensures SystemStress20(10, 45, 10) == MaxStress20
    ensures Governor(10, 45, 10) == Disabled
  {
  }
}
