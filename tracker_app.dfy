/** The `CoffeeTrackerApp` component's state, updated in place by its handlers.

    The three `useState` slots become the fields `todayCount`, `weeklyData` and
    `showStats`. A click handler reads the current fields and writes the next ones in
    one step; React's scheduling of state updates and re-renders is not modelled.
    Each method is proved against the matching transition of CounterStore, where the
    properties of the transitions are proved.
 */
module TrackerApp {
  import opened Series
  import opened CounterStore

  class CoffeeTrackerApp {
    var todayCount: int
    var weeklyData: array<DaySample>
    var showStats: bool

    /** The counter never drops below zero, and the series always has a last entry for
        the handlers to write into (one placeholder before mounting, a week after). */
    ghost predicate Valid()
      reads this
    {
      weeklyData.Length >= 1 && todayCount >= 0
    }

    /** The component's state as a value. */
    ghost function State(): AppState
      reads this, weeklyData
    {
      AppState(todayCount, weeklyData[..], showStats)
    }

    /** The `useState` defaults: counter 0, a one-entry placeholder series, chart hidden. */
    constructor ()
      ensures Valid() && fresh(weeklyData)
      ensures State() == InitialState()
    {
      var placeholder := new DaySample[1](_ => DaySample("", 0));
      assert placeholder[..] == [DaySample("", 0)];
      todayCount := 0;
      weeklyData := placeholder;
      showStats := false;
    }

    /** The mount effect: stores a freshly built week as the series. `labels[i]` is the
        weekday label and `draws[i]` the `Math.random` draw of the day `i` days back. */
    method MountEffect(labels: seq<string>, draws: seq<real>)
      requires Valid()
      requires |labels| == WeekLength && |draws| == WeekLength
      requires forall i :: 0 <= i < WeekLength ==> IsDraw(draws[i])
      modifies this`weeklyData
      ensures Valid() && fresh(weeklyData)
      ensures State() == Mounted(old(State()), labels, draws)
    {
      var initialData := InitialSeries(labels, draws);
      weeklyData := new DaySample[|initialData|](i requires 0 <= i < |initialData| => initialData[i]);
      assert weeklyData[..] == initialData;
    }

    /** `handleIncrement`: today's entry record is shared with the previous array by the
        shallow copy, so its `cups` is written in place. */
    method HandleIncrement()
      requires Valid()
      modifies this`todayCount, weeklyData
      ensures Valid()
      ensures State() == Increment(old(State()))
    {
      var next := todayCount + 1;
      var last := weeklyData.Length - 1;
      weeklyData[last] := weeklyData[last].(cups := next);
      todayCount := next;
    }

    /** `handleDecrement`: does nothing unless the counter is positive. */
    method HandleDecrement()
      requires Valid()
      modifies this`todayCount, weeklyData
      ensures Valid()
      ensures State() == Decrement(old(State()))
    {
      if todayCount > 0 {
        var next := todayCount - 1;
        var last := weeklyData.Length - 1;
        weeklyData[last] := weeklyData[last].(cups := next);
        todayCount := next;
      }
    }

    /** The stats button's click handler. */
    method HandleToggleStats()
      requires Valid()
      modifies this`showStats
      ensures Valid()
      ensures State() == ToggleStats(old(State()))
    {
      showStats := !showStats;
    }

    /** The decrement button's `disabled` attribute as rendered: it is set exactly when a
        click on the button would leave the whole state unchanged. */
    method IsMinusDisabled() returns (disabled: bool)
      requires Valid()
      ensures disabled <==> Decrement(State()) == State()
    {
      disabled := todayCount == 0;
      MinusDisabledIffNoOp(State());
    }
  }
}
