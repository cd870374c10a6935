# Coffee tracker: the counter state machine

A model of the state logic of `CoffeeTrackerApp`, a widget that counts today's cups
of coffee and can show a weekly trend chart. The component holds three pieces of
state: today's count, a series of `{date, cups}` samples with today last, and a flag
that says whether the chart is shown. Three click handlers change that state:

- the plus button adds one cup to the counter and writes the new count into today's sample;
- the minus button does the same with one cup fewer, but only while the counter is positive,
  and it is rendered disabled at zero;
- the stats button flips the chart flag.

A mount effect replaces the one-entry placeholder series with a week of samples, built
for offsets 0 (today) to 6 days back and then reversed so that the oldest day comes first.

The project has three modules:

- `Series` (series.dfy): the sample record, the seeded count `floor(random * 5)`, and the
  mount effect's series as a pure function, with the proof that it has seven entries,
  oldest first, today last, every count in 0 .. 4.
- `CounterStore` (store.dfy): the component state as a value (`AppState`), one function
  per handler, a `Run` over a sequence of button presses, and the lemmas about them.
- `TrackerApp` (tracker_app.dfy): the class `CoffeeTrackerApp` with the fields
  `todayCount`, `weeklyData` (an array) and `showStats`, whose handler methods update
  the fields in place and are each proved to perform the matching `CounterStore` transition.

A reader might expect the series always to have seven entries and the counter always to
equal today's cups. The source guarantees neither, and the model follows the source.
Before the mount effect runs, the series has one placeholder entry, not seven, so the
class invariant only asks for at least one entry. Right after mounting, today's seeded
count is random while the counter is 0, so "today's sample equals the counter" is
guaranteed only after the first press that changes the counter
(`CounterStore.MountedNeedNotBeSynced`, `CounterStore.SyncedAfterCounterChange`). It
can hold earlier by chance: the placeholder entry has 0 cups, and a draw below 0.2
seeds 0 cups for today.

The counter handlers write the cup value from the counter captured when the handler was
created, while the counter is advanced through an updater function. Two clicks handled
before a re-render would therefore advance the counter twice but write the same cup value.
The stats button likewise sets the flag to the negation of the captured value, with no
updater, so two toggle clicks handled before a re-render would flip it only once. The
model handles every click against the state the previous click left, which is what happens
when each click is rendered before the next.

## Model

| member | source | states |
|---|---|---|
| Series.SeedCups | src/App.tsx:89 | a seeded count `floor(r * 5)` of a draw `r` in [0, 1) lies in 0 .. 4 |
| Series.SamplesFrom | src/App.tsx:84-90 | `Array.from` with the day mapper yields `n` samples, the one at index `i` being the day `i` days back |
| Series.ReverseAt | src/App.tsx:91 | `.reverse()` puts at index `k` the element at index `n - 1 - k` |
| Series.InitialSeriesShape | src/App.tsx:84-91 | the mounted series has exactly 7 entries; index `k` is the day `6 - k` days back, so index 6 is today and index 0 six days back; every seeded count is in 0 .. 4 |
| CounterStore.InitialState | src/App.tsx:79-81 | before mounting: counter 0, chart hidden, a series of one placeholder entry |
| CounterStore.Increment | src/App.tsx:95-100 | counter becomes old + 1; today's cups become old + 1; series length, every other entry and today's date label unchanged; chart flag unchanged; no error case and no upper bound |
| CounterStore.Decrement | src/App.tsx:102-109 | with a positive counter: counter and today's cups become old - 1, nothing else in the series or the flag changes; otherwise the state is unchanged |
| CounterStore.ToggleStats | src/App.tsx:143 | the chart flag is negated; counter and series unchanged |
| CounterStore.ToggleTwice | src/App.tsx:143 | toggling twice restores the original state |
| CounterStore.MinusDisabledIffNoOp | src/App.tsx:126 | on a non-negative counter the minus button is disabled exactly when a decrement would change nothing, so the disabled control matches the handler's guard |
| CounterStore.RunNeverNegative | src/App.tsx:79-109 | from a counter at zero or above, no sequence of presses makes it negative |
| CounterStore.RunOnlyTouchesTodayCups | src/App.tsx:97-107 | over any sequence of presses the series keeps its length, every entry but the last, and the last entry's date label |
| CounterStore.RunKeepsSynced | src/App.tsx:95-109 | once today's cups equal the counter, every further press keeps them equal |
| CounterStore.SyncedAfterCounterChange | src/App.tsx:95-109 | after any press that changed the counter, today's cups equal the counter from then on |
| CounterStore.MountedNeedNotBeSynced | src/App.tsx:79-92 | right after mounting, today's seeded cups can differ from the counter (a draw of 0.5 gives 2 cups against a counter of 0) |
| CounterStore.MountedRunKeepsWeek | src/App.tsx:83-109 | after mounting, any sequence of presses leaves 7 entries carrying the mounted week's labels, oldest first, and a counter at zero or above |
| CounterStore.PressScenario | src/App.tsx:95-109 | three increments give counter 3 and today's cups 3; one decrement gives 2 and 2; two more give 0; a further decrement leaves 0 |
| TrackerApp.CoffeeTrackerApp.constructor | src/App.tsx:79-81 | the fields start as the `useState` defaults and satisfy the invariant |
| TrackerApp.CoffeeTrackerApp.MountEffect | src/App.tsx:83-93 | the series field becomes a fresh array holding the mounted week; counter and flag unchanged |
| TrackerApp.CoffeeTrackerApp.HandleIncrement | src/App.tsx:95-100 | updates the counter and today's entry in place exactly as `Increment`, keeping the invariant |
| TrackerApp.CoffeeTrackerApp.HandleDecrement | src/App.tsx:102-109 | updates the counter and today's entry in place exactly as `Decrement` (nothing at zero), keeping the invariant |
| TrackerApp.CoffeeTrackerApp.HandleToggleStats | src/App.tsx:143 | flips the chart flag exactly as `ToggleStats` |
| TrackerApp.CoffeeTrackerApp.IsMinusDisabled | src/App.tsx:126 | the minus button is disabled exactly when a click on it would leave the state unchanged |

## Left out

- Rendering: the JSX tree, the card components and the SVG icons (src/App.tsx:11-76, 111-180) have no state logic.
- The chart: `LineChart` and `ResponsiveContainer` belong to the recharts library, which is not part of this model; only the `showStats` flag that shows or hides it is modelled.
- Dates: `new Date()`, `setDate` and `toLocaleDateString` depend on the clock and the locale; the weekday labels are opaque strings passed to the mount effect, `labels[i]` for the day `i` days back.
- Randomness: each `Math.random()` call is a parameter `draws[i]` in [0, 1), and the seeded count is the floor of five times it.
- Series.SeedCups: draws and their product with 5 are exact reals, so the rounding of the double product `Math.random() * 5` is not modelled; at a few boundary draws (the double nearest 0.6, for one) the source's count is one higher than the model's, while the set of possible seeded counts, 0 .. 4, is the same.
- React: the scheduling of `useState` updates, batching of updates from several clicks before a re-render, and re-rendering itself. Each handler is one atomic transition on the current state, so the stale captured counter and the stale captured chart flag described above are not exercised; `CounterStore.ToggleTwice` is about two toggles each rendered before the next.
- Array copy: the handlers' shallow copy `[...weeklyData]` produces a new array whose records are shared with the old one; the model writes today's record in the one array the component holds and does not model the second array object.
- CounterStore.Increment: JavaScript numbers are doubles, so counts above 2^53 would lose precision; the model's counter is an unbounded integer.
- CSS (the `App.css` import) has no behaviour to model.
