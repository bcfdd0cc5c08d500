# Zwiggy Green-Route Governor

A Dafny model of the "CTO Governor" engine of the Zwiggy Green-Route dashboard.
The dashboard takes three slider values: traffic congestion (1..10), kitchen prep
variance in minutes (0..45) and active riders in the zone (10..200). From them the
engine derives:

- a system stress score, clamped to 0..100;
- three delivery ETAs in whole minutes: single order, unrestricted multi-cart and
  Green-Route;
- the governor's gate. Above a stress of 80, multi-cart routing is disabled.
  Otherwise the Green-Route ETA is shown, together with the minutes it saves
  against an unrestricted multi-cart.

It also derives the three numbers the bar chart draws and the upper end of the
chart's value axis.

Everything is pure, so the model is a set of functions and lemmas:

- `trunc_arith.dfy` (`TruncArith`) defines the numeric cast `int(x)`, which drops
  the fractional part and so rounds toward zero. `IsTruncQuotient` specifies it;
  `TruncDiv` computes it with Dafny's Euclidean `/`.
- `governor.dfy` (`GovernorEngine`) holds the engine: stress, ETAs and the `Route`
  result, which is `Enabled(eta, delta)` or `Disabled`.
- `chart.dfy` (`Chart`) holds the bar values and the axis bound.

The source computes with floating point. The model uses exact integers instead:

- stress is scaled by 20, so `20 * stress == 120*traffic + 30*variance - 3*riders`,
  and the threshold 80 becomes 1600;
- the single-order ETA is `int((400 + 30*traffic - riders) / 20)`;
- the Green-Route ETA is `int((5*single + variance) / 5)`.

The model's functions accept every integer. They agree with the source, up to
float rounding, only while the inputs convert to float exactly (below 2^53, so
on the slider ranges); see "Floating point" under "## Left out". The slider ranges appear only as the
precondition `OnSliders` of the lemmas that need them.

Two consequences of the formulas that are easy to get wrong:

- More riders lower the base stress strictly. The clamped stress and the
  single-order ETA only never rise (`MoreRidersLowerStress`,
  `MoreRidersFasterSingleOrder`). Clamped stress stays at 100 when saturated
  (`SaturatedStressIgnoresRiders`). Truncation can keep the ETA unchanged
  (`SingleOrderEtaNotStrict`).
- The gate is strict (`>`). For integer inputs the base stress is a multiple of
  0.15, so it is never exactly 80 (`StressNeverAtThreshold`). `ThresholdBoundary`
  pins the nearest reachable values instead: 79.95 stays enabled and 80.1 is
  disabled.

## Model

| member | source | states |
|---|---|---|
| `TruncArith.TruncDiv` | app.py:41 | the result is the quotient with its fractional part dropped (rounded toward zero, also for negative dividends), as Python's `int()` of a float gives |
| `GovernorEngine.SystemStress20` | app.py:33-34 | stress lies in [0, 100]; it equals the base stress when that is already in range, and is 0 below the range and 100 above it |
| `GovernorEngine.SingleOrderEta` | app.py:37-41 | the ETA is `20 + 1.5*traffic - 0.05*riders` truncated toward zero |
| `GovernorEngine.GreenRouteEta` | app.py:43 | the ETA is `single + 0.2*variance` truncated toward zero |
| `GovernorEngine.Governor` | app.py:46-55 | routing is disabled exactly when stress exceeds 80; when enabled, the displayed ETA is the Green-Route ETA and ETA plus delta is the unrestricted ETA |
| `GovernorEngine.GateOnBaseStress` | app.py:33-46 | testing the clamped stress against 80 gives the same decision as testing the unclamped base stress |
| `GovernorEngine.StressNeverAtThreshold` | app.py:33-34 | 20 times the base stress is a multiple of 3, so stress is never exactly 80 for integer inputs |
| `GovernorEngine.ThresholdBoundary` | app.py:46 | the test is strict: stress 79.95 (traffic 10, variance 15, riders 17) is enabled; 80.1 (riders 16) is disabled |
| `GovernorEngine.MoreRidersLowerStress` | app.py:33-46 | more riders strictly lower base stress, never raise clamped stress, and never turn enabled routing off |
| `GovernorEngine.SaturatedStressIgnoresRiders` | app.py:33-34 | at saturation one more rider lowers base stress (126 to 125.85) but the clamped stress stays 100 |
| `GovernorEngine.MoreRidersFasterSingleOrder` | app.py:37-41 | more riders never increase the single-order ETA |
| `GovernorEngine.SingleOrderEtaNotStrict` | app.py:41 | one more rider can leave the single-order ETA unchanged (traffic 5: 100 and 101 riders both give 22) |
| `GovernorEngine.EtaOrdering` | app.py:41-55 | unrestricted = single + variance exactly; for variance >= 0, single <= green <= unrestricted, so the reported saving is never negative |
| `GovernorEngine.GreenRouteAddsFifth` | app.py:43-55 | with a non-negative single ETA and variance, green = single + variance/5 rounded down, and the saving is variance - variance/5 |
| `GovernorEngine.EtaRangeOnSliders` | app.py:27-43 | on the slider ranges the ETAs lie in 11..34 (single), 11..43 (green) and 11..79 (unrestricted) |
| `GovernorEngine.EtaTruncatesTowardZero` | app.py:41-43 | negative exact ETAs round toward zero: -1.5 gives -1 and -0.6 gives 0 |
| `GovernorEngine.DefaultSliders` | app.py:27-55 | defaults 5/15/100 give stress 37.5, ETAs 22/37/25, routing enabled with ETA 25 and 12 minutes saved |
| `GovernorEngine.Overload` | app.py:33-50 | traffic 10, variance 45, riders 10 give base stress 126, clamped to 100, and routing disabled |
| `Chart.SeqMax` | app.py:93 | the result is an element of the list and no element exceeds it |
| `Chart.ChartValues` | app.py:81-85 | three bars; the first two are the larger of 10 and the single and unrestricted ETAs; the third is the larger of 10 and the green ETA when enabled and 0 when disabled |
| `Chart.AxisUpper` | app.py:88-93 | an axis bound exists exactly when routing is enabled (chart drawn); it is 15 above the tallest bar, which is one of the bars |
| `Chart.FloorInactiveOnSliders` | app.py:81-85 | on the slider ranges the floor of 10 never changes a bar |
| `Chart.AxisFollowsUnrestricted` | app.py:82-93 | for variance >= 0 with routing enabled, the axis bound is the unrestricted bar plus 15 |
| `Chart.DefaultChart` | app.py:81-93 | the defaults draw bars 22, 37, 25 with the axis up to 52 |
| `Chart.OverloadChart` | app.py:81-99 | under overload the green bar is 0 and no chart axis exists |

## Left out

- Floating point: the model uses exact arithmetic for `1.5`, `0.15`, `0.05` and `0.2`. It matches the source only while the inputs convert to float exactly, which holds on the slider ranges. Even there a float product could land one unit in the last place below an integer, which would move an `int()` result or the threshold test by one; this is not modelled. Inputs above 2^53 lose precision when the source converts them to float (traffic 2^53+1 becomes 2^53), and inputs too large for a float (about 1.8e308) make the source raise `OverflowError`. The model computes exactly for every integer and has no such error path.
- Page configuration, CSS, title and the slider widgets (app.py:6-29): this is presentation. The slider ranges appear only as the precondition `OnSliders`.
- Status labels, colours, the metric and markdown panels, and their text (app.py:47-48, 52-53, 58-71): this is presentation. `display_eta` and the delta text become the `Enabled(eta, delta)` and `Disabled` variants. The stress percentage shown on the metric (`int(system_stress)`, app.py:62) is not modelled separately.
- The pandas DataFrame, the plotly figure and its styling, and the error panel (app.py:79-99): these are library calls. Only the three bar values and the axis upper bound are modelled.
- `UnrestrictedEta` has no contract of its own. Its one fact, unrestricted = single + variance (the `int()` around an integer sum does nothing), is stated by `EtaOrdering`.
