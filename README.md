# Lost-revenue estimate of the ROI simulator

The simulator is a single-page calculator. Five range sliders set the calls a
service receives per day, the percentage of them it misses, the percentage of
callers who try again, the percentage of calls that become appointments, and
the average price of a service. A chain of multiplications turns these into
six figures: missed calls, lost customers and lost appointments per day, and
the revenue lost per day, per month (24 working days) and per year (12
months).

This project models that estimate over exact reals and proves what it
promises:

- `sliders.dfy` (module `Sliders`): a slider's bounds and step, the values a
  browser range input with those attributes can report, and the fill
  percentage `((value - min) / (max - min)) * 100` drawn behind the thumb.
- `simulation.dfy` (module `Simulation`): the five parameters, the slider
  bounds as the input domain, the working-days constant, the defaults and
  `Compute`, the estimate itself, written as the same chain of bindings as
  the source. `Compute` has no precondition, because the source validates
  nothing; the domain appears only in the lemmas. The lemmas state the exact
  closed form, the scaling laws, strict funnel narrowing, positivity,
  monotonicity, the least-loss and greatest-loss bounds and two concrete
  scenarios.
- `app_state.dfy` (module `AppState`): the five setters as functions that
  replace one parameter, and the memoised estimate as a cache of its five
  dependencies. Its lemmas show that a cache reused when the dependencies are
  equal is never stale, that slider changes keep the parameters in the
  domain, and that the estimate shown after a sequence of changes is the
  estimate of the parameters the last change left.

App.tsx clamps nothing: the only bound is the browser's range input,
which cannot report a value off the slider (App.tsx:60-66). So the domain is
a precondition of the lemmas (`InDomain`), not a clamping step.

The range input also reports only whole steps above the minimum. For the
price slider (min 100, step 50) that means multiples of 50, and `Admits`
includes that condition.

## Model

| member | source | states |
|---|---|---|
| `Simulation.Compute` | App.tsx:172-188 | the estimate, as the same chain of bindings; its own contract states only that a year of loss is 288 days of loss, and `ClosedForm`, the funnel, positivity, monotonicity, bounds and scenario lemmas below characterise it |
| `Sliders.FillPercentage` | App.tsx:39 | the fill is not finite exactly when min equals max (JavaScript divides by zero); it is 0 at the minimum and 100 at the maximum |
| `Sliders.FillWithinBounds` | App.tsx:39 | on a non-empty range, a value between the bounds fills between 0% and 100% |
| `Sliders.FillMonotone` | App.tsx:39 | between the same bounds a larger value never fills less |
| `Sliders.FillRoundTrip` | App.tsx:39 | the value can be read back from its fill percentage on a non-empty range, so the percentage is a faithful position |
| `Sliders.AdmittedFillWithinBounds` | App.tsx:37-39 | every value a well-formed slider can report fills between 0% and 100% |
| `Simulation.ClosedForm` | App.tsx:172-188 | each of the six figures equals one integer product of the inputs over a power of ten (for example daily revenue = calls × missed × (100 − retry) × conversion × price / 10^6) |
| `Simulation.ScalingLaws` | App.tsx:177-179 | for every input, monthly revenue is daily × 24, annual is monthly × 12, so annual is daily × 288 |
| `Simulation.MissedCallsPositive` | App.tsx:173 | within the domain there are more than zero missed calls |
| `Simulation.LostCustomersPositive` | App.tsx:174-175 | within the domain more than zero customers are lost |
| `Simulation.LostAppointmentsPositive` | App.tsx:176 | within the domain more than zero appointments are lost |
| `Simulation.MissedCallsBelowCalls` | App.tsx:173 | within the domain fewer calls are missed than come in |
| `Simulation.LostCustomersBelowMissedCalls` | App.tsx:174-175 | within the domain fewer customers are lost than calls are missed |
| `Simulation.LostAppointmentsBelowLostCustomers` | App.tsx:176 | within the domain fewer appointments are lost than customers |
| `Simulation.FunnelOrdering` | App.tsx:173-176 | within the domain 0 < lost appointments < lost customers < missed calls < incoming calls |
| `Simulation.Positivity` | App.tsx:173-179 | within the domain all six figures are strictly positive |
| `Simulation.LossMonotone` | App.tsx:173-179 | for two inputs in the domain, more calls, missed calls, conversions or a higher price, or fewer call-backs, never lower any of the six figures |
| `Simulation.RevenueMonotoneInPrice` | App.tsx:177-179 | daily, monthly and annual revenue do not decrease as the average price rises, other inputs fixed |
| `Simulation.RevenueAntitoneInRetry` | App.tsx:174-179 | daily, monthly and annual revenue do not increase as the retry rate rises, other inputs fixed |
| `Simulation.LossBounds` | App.tsx:236-276 | with the domain `InDomain` being the slider bounds and steps of App.tsx:236-276, both corners are on the sliders, and every input on the sliders loses between 576 and 314928000 a year and between 2 and 1093500 a day |
| `Simulation.DefaultScenario` | App.tsx:165-169 | the defaults (100, 50, 75, 50, 500) are in the domain and yield 50, 12.5, 6.25, 3125, 75000 and 900000 |
| `Simulation.MinimumLossScenario` | App.tsx:173-179 | the least-loss corner (20, 10, 90, 10, 100) is on the sliders and yields 2, 0.2, 0.02, 2, 48 and 576 |
| `Simulation.BoundaryComparison` | App.tsx:173-179 | with the other inputs fixed, missed rate 10 and retry rate 90 give strictly smaller figures than missed rate 90 and retry rate 10 |
| `AppState.SliderOf` | App.tsx:233-279 | each parameter's slider is well formed (minimum below maximum, positive step) |
| `AppState.Set` | App.tsx:165-169 | a setter stores the value it is given in its own parameter and leaves the other four unchanged |
| `AppState.InDomainByField` | App.tsx:233-279 | the input domain `InDomain` holds exactly when every parameter is a value its own slider admits |
| `AppState.SetPreservesDomain` | App.tsx:60-66 | a setter fed a value its slider admits keeps the input in the domain |
| `AppState.Initial` | App.tsx:165-172 | the first state holds the defaults (100, 50, 75, 50, 500), which are in the domain, and their estimate 50, 12.5, 6.25, 3125, 75000 and 900000 |
| `AppState.Render` | App.tsx:172-189 | the cache is reused unchanged when the five dependencies are equal, and a current cache always yields the estimate of the new parameters |
| `AppState.Change` | App.tsx:66 | a slider change stores the new parameter and keeps the cached estimate current |
| `AppState.Replay` | App.tsx:165-189 | after a sequence of slider changes the parameters held are exactly those the setters alone produce (`ApplyChanges`); the memo never alters them |
| `AppState.ReplayKeepsEstimateCurrent` | App.tsx:172-189 | after any sequence of slider changes the cached estimate is the estimate of the current parameters |
| `AppState.ReplayStaysInDomain` | App.tsx:60-66 | a sequence of values reported by the sliders keeps the parameters in the domain |
| `AppState.LastChangeDecides` | App.tsx:172-189 | the estimate shown after a sequence of changes is the estimate of the parameters the last change produced |

## Left out

- IEEE-754 rounding: JavaScript numbers are doubles, the model uses exact reals. The figures here are the exact values the doubles approximate.
- `formatCurrency` and `formatNumber` (App.tsx:18-24): they call `Intl.NumberFormat` with Italian locale rules, which are not part of this model.
- All rendering: the JSX markup, styles, icons, `ResultCard`, the tooltip and the "Generated" date, which reads the wall clock.
- React's own machinery: when components re-render, how `useState` schedules updates, and how `useMemo` compares dependencies. The model takes a render as a plain function call and compares dependencies with value equality.
- The `SimulationState` interface (App.tsx:5-11): nothing uses it; the state lives in five separate `useState` variables.
- Clamping: the code has none, so the model has none; an input off the sliders is simply outside the precondition of the lemmas.
- `Sliders.FillPercentage`: a non-finite result is one value `NotFinite`; the model does not tell NaN from the infinities.
