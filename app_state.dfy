/** The state of `App` in App.tsx: five parameters, each replaced whole by
    its slider's change handler, and the memoised estimate that is recomputed
    only when one of its five dependencies differs from the cached ones. */
module AppState {
  import opened Sliders
  import opened Simulation

  /** The five parameters, in the order of the input panel. */
  datatype Field = CallsPerDay | MissedRate | RetryRate | ConversionRate | AvgPrice

  /** The range control that sets each parameter. */
  function SliderOf(f: Field): (s: Slider)
    ensures WellFormed(s)
  {
    match f
    case CallsPerDay => CallsPerDaySlider
    case MissedRate => MissedRateSlider
    case RetryRate => RetryRateSlider
    case ConversionRate => ConversionRateSlider
    case AvgPrice => AvgPriceSlider
  }

  function Get(i: SimulationInput, f: Field): int {
    match f
    case CallsPerDay => i.callsPerDay
    case MissedRate => i.missedRate
    case RetryRate => i.retryRate
    case ConversionRate => i.conversionRate
    case AvgPrice => i.avgPrice
  }

  /** A setter replaces one parameter with the value it is given and leaves
      the other four alone. */
  function Set(i: SimulationInput, f: Field, v: int): (j: SimulationInput)
    ensures Get(j, f) == v
    ensures forall g :: g != f ==> Get(j, g) == Get(i, g)
  {
    match f
    case CallsPerDay => i.(callsPerDay := v)
    case MissedRate => i.(missedRate := v)
    case RetryRate => i.(retryRate := v)
    case ConversionRate => i.(conversionRate := v)
    case AvgPrice => i.(avgPrice := v)
  }

  /** The domain is exactly: every parameter on its own slider. */
  lemma InDomainByField(i: SimulationInput)
    ensures InDomain(i) <==> forall f :: Admits(SliderOf(f), Get(i, f))
  {
    if InDomain(i) {
      forall f ensures Admits(SliderOf(f), Get(i, f)) {
        match f
        case CallsPerDay =>
        case MissedRate =>
        case RetryRate =>
        case ConversionRate =>
        case AvgPrice =>
      }
    } else {
      if !Admits(CallsPerDaySlider, i.callsPerDay) {
        assert !Admits(SliderOf(CallsPerDay), Get(i, CallsPerDay));
      } else if !Admits(MissedRateSlider, i.missedRate) {
        assert !Admits(SliderOf(MissedRate), Get(i, MissedRate));
      } else if !Admits(RetryRateSlider, i.retryRate) {
        assert !Admits(SliderOf(RetryRate), Get(i, RetryRate));
      } else if !Admits(ConversionRateSlider, i.conversionRate) {
        assert !Admits(SliderOf(ConversionRate), Get(i, ConversionRate));
      } else {
        assert !Admits(SliderOf(AvgPrice), Get(i, AvgPrice));
      }
    }
  }

  /** A setter fed by its own slider keeps every parameter on its slider. */
  lemma SetPreservesDomain(i: SimulationInput, f: Field, v: int)
    requires InDomain(i) && Admits(SliderOf(f), v)
    ensures InDomain(Set(i, f, v))
  {
    InDomainByField(i);
    var j := Set(i, f, v);
    forall g ensures Admits(SliderOf(g), Get(j, g)) {
      if g != f {
        assert Get(j, g) == Get(i, g);
      }
    }
    InDomainByField(j);
  }

  /** The memoised estimate: the dependency values it was last computed
      from, and what it computed. */
  datatype Memo = Memo(deps: SimulationInput, results: SimulationResult)

  /** The cache holds the estimate of its own dependencies. */
  predicate Current(m: Memo) {
    m.results == Compute(m.deps)
  }

  /** The state on first render: the defaults and their estimate. */
  function Initial(): (m: Memo)
    ensures m.deps == DefaultInput
    ensures Current(m) && InDomain(m.deps)
    ensures m.results == SimulationResult(50.0, 12.5, 6.25, 3125.0, 75000.0, 900000.0)
  {
    DefaultScenario();
    Memo(DefaultInput, Compute(DefaultInput))
  }

  /** One render: the cached estimate is reused when all five dependencies
      equal the cached ones, and recomputed otherwise. Since the dependency
      list names every input of the estimate, a current cache is never stale. */
  function Render(m: Memo, i: SimulationInput): (m': Memo)
    ensures m'.deps == i
    ensures i == m.deps ==> m' == m
    ensures Current(m) ==> m'.results == Compute(i)
  {
    if i == m.deps then m else Memo(i, Compute(i))
  }

  /** A slider change: the setter replaces one parameter, then the component
      renders again. */
  function Change(m: Memo, f: Field, v: int): (m': Memo)
    ensures m'.deps == Set(m.deps, f, v)
    ensures Current(m) ==> Current(m')
  {
    Render(m, Set(m.deps, f, v))
  }

  /** One slider change: which parameter, and the value its control reported. */
  datatype Event = Event(field: Field, value: int)

  /** Every reported value is one the slider for that parameter admits. */
  predicate FromSliders(events: seq<Event>) {
    forall k :: 0 <= k < |events| ==> Admits(SliderOf(events[k].field), events[k].value)
  }

  /** The parameters after applying the setters of a sequence of changes,
      oldest first, with no cache involved. */
  function ApplyChanges(i: SimulationInput, events: seq<Event>): SimulationInput
    decreases |events|
  {
    if events == [] then i
    else
      var last := events[|events| - 1];
      Set(ApplyChanges(i, events[..|events| - 1]), last.field, last.value)
  }

  /** The state after a sequence of slider changes, oldest first. Its
      parameters are those the setters alone produce: rendering never alters
      them. */
  function Replay(m: Memo, events: seq<Event>): (r: Memo)
    ensures r.deps == ApplyChanges(m.deps, events)
    decreases |events|
  {
    if events == [] then m
    else
      var last := events[|events| - 1];
      Change(Replay(m, events[..|events| - 1]), last.field, last.value)
  }

  /** After any sequence of changes from a current cache, the estimate
      shown is that of the current parameters. */
  lemma {:induction false} ReplayKeepsEstimateCurrent(m: Memo, events: seq<Event>)
    requires Current(m)
    ensures Current(Replay(m, events))
  {
    if events != [] {
      ReplayKeepsEstimateCurrent(m, events[..|events| - 1]);
    }
  }

  /** Changes reported by the sliders keep every parameter on its slider. */
  lemma {:induction false} ReplayStaysInDomain(m: Memo, events: seq<Event>)
    requires InDomain(m.deps) && FromSliders(events)
    ensures InDomain(Replay(m, events).deps)
  {
    if events != [] {
      var prefix := events[..|events| - 1];
      var last := events[|events| - 1];
      assert FromSliders(prefix) by {
        forall k | 0 <= k < |prefix| ensures Admits(SliderOf(prefix[k].field), prefix[k].value) {
          assert prefix[k] == events[k];
        }
      }
      ReplayStaysInDomain(m, prefix);
      SetPreservesDomain(Replay(m, prefix).deps, last.field, last.value);
    }
  }

  /** The most recent change decides what is shown: the estimate after a
      sequence of changes is the estimate of the parameters the last change
      left behind. */
  lemma {:induction false} LastChangeDecides(m: Memo, events: seq<Event>, e: Event)
    requires Current(m)
    ensures Replay(m, events + [e]).results
         == Compute(Set(Replay(m, events).deps, e.field, e.value))
  {
    ReplayKeepsEstimateCurrent(m, events);
    assert (events + [e])[..|events + [e]| - 1] == events;
  }
}
