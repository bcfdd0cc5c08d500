/**
 The numbers behind the delivery-time bar chart: one bar per routing mode, each
 shown as at least 10 minutes, the green-route bar emptied when the governor has
 disabled routing, and the upper bound of the value axis when the chart is drawn.
 */
module Chart {
  import opened GovernorEngine

  datatype Option<T> = None | Some(value: T)

  /** The least value a drawn bar shows. */
  const MinBar: int := 10
  /** Head room above the tallest bar. */
  const AxisPadding: int := 15

  /** The largest element of a non-empty list, as Python's `max` of a column. */
  function SeqMax(s: seq<int>): (m: int)
    requires |s| > 0
    ensures m in s
    ensures forall i :: 0 <= i < |s| ==> s[i] <= m
  {
    if |s| == 1 then s[0] else Max(s[0], SeqMax(s[1..]))
  }

  /** The three bar heights: single order, unrestricted multi-cart, green route. */
  function ChartValues(traffic: int, variance: int, riders: int): (bars: seq<int>)
    ensures |bars| == 3
    ensures bars[0] >= MinBar && bars[0] >= SingleOrderEta(traffic, riders)
    ensures bars[0] in {MinBar, SingleOrderEta(traffic, riders)}
    ensures bars[1] >= MinBar && bars[1] >= UnrestrictedEta(traffic, variance, riders)
    ensures bars[1] in {MinBar, UnrestrictedEta(traffic, variance, riders)}
    ensures Governor(traffic, variance, riders).Disabled? ==> bars[2] == 0
    ensures Governor(traffic, variance, riders).Enabled? ==>
              bars[2] >= MinBar && bars[2] >= GreenRouteEta(traffic, variance, riders) &&
              bars[2] in {MinBar, GreenRouteEta(traffic, variance, riders)}
  {
    [ Max(MinBar, SingleOrderEta(traffic, riders)),
      Max(MinBar, UnrestrictedEta(traffic, variance, riders)),
      if SystemStress20(traffic, variance, riders) <= Threshold20
      then Max(MinBar, GreenRouteEta(traffic, variance, riders)) else 0 ]
  }

  /** The upper end of the value axis: present exactly when the chart is drawn, 15 above the tallest bar. */
  function AxisUpper(traffic: int, variance: int, riders: int): (top: Option<int>)
    ensures top.Some? <==> Governor(traffic, variance, riders).Enabled?
    ensures top.Some? ==> top.value - AxisPadding in ChartValues(traffic, variance, riders)
    ensures top.Some? ==> forall i :: 0 <= i < 3 ==> ChartValues(traffic, variance, riders)[i] + AxisPadding <= top.value
  {
    if SystemStress20(traffic, variance, riders) <= Threshold20
    then Some(SeqMax(ChartValues(traffic, variance, riders)) + AxisPadding)
    else None
  }

  /** On the sliders the floor of 10 never changes a bar: every ETA is already above it. */
  lemma FloorInactiveOnSliders(traffic: int, variance: int, riders: int)
    requires OnSliders(traffic, variance, riders)
    ensures ChartValues(traffic, variance, riders)[0] == SingleOrderEta(traffic, riders)
    ensures ChartValues(traffic, variance, riders)[1] == UnrestrictedEta(traffic, variance, riders)
    ensures Governor(traffic, variance, riders).Enabled? ==>
              ChartValues(traffic, variance, riders)[2] == GreenRouteEta(traffic, variance, riders)
  {
    EtaRangeOnSliders(traffic, variance, riders);
  }

  /** With a non-negative variance the unrestricted bar is the tallest, so it fixes the axis. */
  lemma AxisFollowsUnrestricted(traffic: int, variance: int, riders: int)
    requires variance >= 0 && Governor(traffic, variance, riders).Enabled?
    ensures AxisUpper(traffic, variance, riders) == Some(Max(MinBar, UnrestrictedEta(traffic, variance, riders)) + AxisPadding)
  {
    EtaOrdering(traffic, variance, riders);
    var bars := ChartValues(traffic, variance, riders);
    assert bars[1] == Max(MinBar, UnrestrictedEta(traffic, variance, riders));
    assert forall i :: 0 <= i < 3 ==> bars[i] <= bars[1];
  }

  /** The default sliders draw bars of 22, 37 and 25 minutes on an axis up to 52. */
  lemma DefaultChart()
    ensures ChartValues(5, 15, 100) == [22, 37, 25]
    ensures AxisUpper(5, 15, 100) == Some(52)
  {
  }

  /** Under overload the green bar is empty and no chart is drawn. */
  lemma OverloadChart()
    ensures ChartValues(10, 45, 10)[2] == 0
    ensures AxisUpper(10, 45, 10) == None
  {
  }
}
