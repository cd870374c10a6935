/** The state of the coffee tracker as a value, and its transitions.

    `AppState` holds the three pieces of component state: today's count, the weekly
    series and the chart-visibility flag. Each handler is one function from the state
    it reads to the state it writes; the class in TrackerApp performs the same
    transitions in place and is proved against these functions.
 */
module CounterStore {
  import opened Series

  datatype AppState = AppState(todayCount: int, series: seq<DaySample>, showStats: bool)

  /** The state before the mount effect has run: the `useState` defaults, whose series
      holds a single placeholder entry rather than a week. */
  function InitialState(): (s: AppState)
    ensures s.todayCount == 0 && !s.showStats && |s.series| == 1
  {
    AppState(0, [DaySample("", 0)], false)
  }

  /** The mount effect replaces the series by a freshly seeded week and touches nothing else. */
  function Mounted(s: AppState, labels: seq<string>, draws: seq<real>): AppState
    requires |labels| == WeekLength && |draws| == WeekLength
    requires forall i :: 0 <= i < WeekLength ==> IsDraw(draws[i])
  {
    s.(series := InitialSeries(labels, draws))
  }

  /** The only change a counter handler makes to the series: same length, every entry
      but the last unchanged, the last entry keeps its date label. */
  predicate OnlyTodayCupsChanged(before: seq<DaySample>, after: seq<DaySample>)
    requires |before| >= 1
  {
    && |after| == |before|
    && (forall k :: 0 <= k < |before| - 1 ==> after[k] == before[k])
    && Last(after).date == Last(before).date
  }

  /** The counter and today's entry of the series agree. */
  predicate Synced(s: AppState) {
    |s.series| >= 1 && Last(s.series).cups == s.todayCount
  }

  /** `handleIncrement`: one more cup, written both to the counter and to today's entry.
      There is no upper bound and no error case. The source writes `todayCount + 1`
      from the value its closure captured while the counter itself is advanced through
      an updater (`prev => prev + 1`); two clicks handled before a re-render would
      advance the counter twice but write the same cup value. Here every click reads
      the state the previous one wrote, which is how the handlers behave when each
      click is rendered before the next. */
  function Increment(s: AppState): (r: AppState)
    requires |s.series| >= 1
    ensures r.todayCount == s.todayCount + 1
    ensures OnlyTodayCupsChanged(s.series, r.series)
    ensures Last(r.series).cups == s.todayCount + 1
    ensures Synced(r)
    ensures r.showStats == s.showStats
  {
    var n := |s.series|;
    var today := s.series[n - 1];
    s.(todayCount := s.todayCount + 1,
       series := s.series[n - 1 := today.(cups := s.todayCount + 1)])
  }

  /** `handleDecrement`: with a positive counter, one cup fewer in the counter and in
      today's entry; otherwise nothing at all changes. The same captured-value remark
      as for Increment applies. */
  function Decrement(s: AppState): (r: AppState)
    requires |s.series| >= 1
    ensures s.todayCount > 0 ==>
      && r.todayCount == s.todayCount - 1
      && OnlyTodayCupsChanged(s.series, r.series)
      && Last(r.series).cups == s.todayCount - 1
      && Synced(r)
      && r.showStats == s.showStats
    ensures s.todayCount <= 0 ==> r == s
  {
    if s.todayCount > 0 then
      var n := |s.series|;
      var today := s.series[n - 1];
      s.(todayCount := s.todayCount - 1,
         series := s.series[n - 1 := today.(cups := s.todayCount - 1)])
    else
      s
  }

  /** The "Show Stats" / "Hide Stats" button: flips the flag, nothing else. The source
      sets the negation of the flag its closure captured rather than using an updater,
      so two clicks handled before a re-render would flip it only once; here each click
      reads the flag the previous one wrote. */
  function ToggleStats(s: AppState): (r: AppState)
    ensures r.showStats != s.showStats
    ensures r.todayCount == s.todayCount && r.series == s.series
  {
    s.(showStats := !s.showStats)
  }

  /** The decrement button's `disabled` attribute. */
  function MinusDisabled(s: AppState): bool {
    s.todayCount == 0
  }

  /** Toggling twice restores the original state. */
  lemma ToggleTwice(s: AppState)
    ensures ToggleStats(ToggleStats(s)) == s
  {
  }

  /** On any state the counter can reach, the decrement button is disabled exactly when
      pressing it would change nothing, so the disabled control and the handler's own
      guard agree. */
  lemma MinusDisabledIffNoOp(s: AppState)
    requires |s.series| >= 1 && s.todayCount >= 0
    ensures MinusDisabled(s) <==> Decrement(s) == s
  {
  }

  /** A user action: one of the three buttons. */
  datatype Action = PressPlus | PressMinus | PressStatsToggle

  function Step(s: AppState, a: Action): (r: AppState)
    requires |s.series| >= 1
    ensures |r.series| == |s.series|
  {
    match a
    case PressPlus => Increment(s)
    case PressMinus => Decrement(s)
    case PressStatsToggle => ToggleStats(s)
  }

  /** The state after the actions, handled one after another. */
  function Run(s: AppState, actions: seq<Action>): (r: AppState)
    requires |s.series| >= 1
    ensures |r.series| == |s.series|
    decreases |actions|
  {
    if actions == [] then s else Run(Step(s, actions[0]), actions[1..])
  }

  lemma {:induction false} RunAppend(s: AppState, xs: seq<Action>, ys: seq<Action>)
    requires |s.series| >= 1
    ensures Run(s, xs + ys) == Run(Run(s, xs), ys)
    decreases |xs|
  {
    if xs == [] {
      assert xs + ys == ys;
    } else {
      assert (xs + ys)[0] == xs[0];
      assert (xs + ys)[1..] == xs[1..] + ys;
      RunAppend(Step(s, xs[0]), xs[1..], ys);
    }
  }

  /** No sequence of button presses makes the counter negative when it starts at zero
      or above. */
  lemma {:induction false} RunNeverNegative(s: AppState, actions: seq<Action>)
    requires |s.series| >= 1 && s.todayCount >= 0
    ensures Run(s, actions).todayCount >= 0
    decreases |actions|
  {
    if actions != [] {
      RunNeverNegative(Step(s, actions[0]), actions[1..]);
    }
  }

  /** Over any sequence of presses the series keeps its length, every entry but today's
      is untouched, and today's date label is kept: only today's cups are ever written. */
  lemma {:induction false} RunOnlyTouchesTodayCups(s: AppState, actions: seq<Action>)
    requires |s.series| >= 1
    ensures OnlyTodayCupsChanged(s.series, Run(s, actions).series)
    decreases |actions|
  {
    if actions != [] {
      var t := Step(s, actions[0]);
      assert OnlyTodayCupsChanged(s.series, t.series);
      RunOnlyTouchesTodayCups(t, actions[1..]);
    }
  }

  /** Once the counter and today's entry agree, every further press keeps them agreeing. */
  lemma {:induction false} RunKeepsSynced(s: AppState, actions: seq<Action>)
    requires Synced(s)
    ensures Synced(Run(s, actions))
    decreases |actions|
  {
    if actions != [] {
      RunKeepsSynced(Step(s, actions[0]), actions[1..]);
    }
  }

  /** After any press that changed the counter, from then on today's entry equals the
      counter. */
  lemma SyncedAfterCounterChange(s: AppState, actions: seq<Action>, i: nat)
    requires |s.series| >= 1 && i < |actions|
    requires Run(s, actions[..i + 1]).todayCount != Run(s, actions[..i]).todayCount
    ensures Synced(Run(s, actions))
  {
    var before := Run(s, actions[..i]);
    RunAppend(s, actions[..i], [actions[i]]);
    assert actions[..i] + [actions[i]] == actions[..i + 1];
    assert Run(s, actions[..i + 1]) == Step(before, actions[i]);
    assert Synced(Step(before, actions[i]));
    RunAppend(s, actions[..i + 1], actions[i + 1..]);
    assert actions[..i + 1] + actions[i + 1..] == actions;
    RunKeepsSynced(Run(s, actions[..i + 1]), actions[i + 1..]);
  }

  /** Right after mounting, today's seeded count need not equal the counter: with a draw
      of 0.5 for today the entry holds 2 cups while the counter is 0. */
  lemma MountedNeedNotBeSynced(labels: seq<string>)
    requires |labels| == WeekLength
    ensures !Synced(Mounted(InitialState(), labels, [0.5, 0.0, 0.0, 0.0, 0.0, 0.0, 0.0]))
  {
  }

  /** After mounting, whatever the user presses, the series keeps exactly seven entries
      whose date labels are the mounted week's, oldest first, and the counter stays
      at zero or above. */
  lemma MountedRunKeepsWeek(labels: seq<string>, draws: seq<real>, actions: seq<Action>)
    requires |labels| == WeekLength && |draws| == WeekLength
    requires forall i :: 0 <= i < WeekLength ==> IsDraw(draws[i])
    ensures |Run(Mounted(InitialState(), labels, draws), actions).series| == WeekLength
    ensures forall k :: 0 <= k < WeekLength ==>
      Run(Mounted(InitialState(), labels, draws), actions).series[k].date == labels[6 - k]
    ensures Run(Mounted(InitialState(), labels, draws), actions).todayCount >= 0
  {
    var m := Mounted(InitialState(), labels, draws);
    InitialSeriesShape(labels, draws);
    RunOnlyTouchesTodayCups(m, actions);
    RunNeverNegative(m, actions);
  }

  /** Three increments, then three decrements, then one more decrement at the floor. */
  lemma PressScenario(labels: seq<string>, draws: seq<real>)
    requires |labels| == WeekLength && |draws| == WeekLength
    requires forall i :: 0 <= i < WeekLength ==> IsDraw(draws[i])
    ensures var m := Mounted(InitialState(), labels, draws);
      && Run(m, [PressPlus, PressPlus, PressPlus]).todayCount == 3
      && Run(m, [PressPlus, PressPlus, PressPlus]).series[6].cups == 3
      && Run(m, [PressPlus, PressPlus, PressPlus, PressMinus]).todayCount == 2
      && Run(m, [PressPlus, PressPlus, PressPlus, PressMinus]).series[6].cups == 2
      && Run(m, [PressPlus, PressPlus, PressPlus, PressMinus, PressMinus, PressMinus]).todayCount == 0
      && Run(m, [PressPlus, PressPlus, PressPlus, PressMinus, PressMinus, PressMinus, PressMinus]).todayCount == 0
  {
  }
}
