/** The weekly series of the coffee tracker and the way the mount effect seeds it.

    The effect builds one sample per day for the trailing week, offset 0 (today)
    first, and then reverses the array so that the oldest day comes first and
    today last. The clock-dependent weekday labels and the `Math.random` draws are
    not computed here: they are parameters, indexed by the same day offset the
    source's mapping function receives.
 */
module Series {

  /** One day of the series: its weekday label and its cup count. */
  datatype DaySample = DaySample(date: string, cups: int)

  /** Number of days in the series the mount effect builds. */
  const WeekLength: nat := 7

  /** The seeded cup count of a day is `floor(random * SeedRange)`. */
  const SeedRange: int := 5

  /** The last sample of a series: today's entry once the series is mounted. */
  function Last(series: seq<DaySample>): DaySample
    requires |series| >= 1
  {
    series[|series| - 1]
  }

  /** A uniform draw of `Math.random`: a number in [0, 1). */
  predicate IsDraw(r: real) {
    0.0 <= r < 1.0
  }

  /** The placeholder count of one day: `Math.floor(Math.random() * 5)`. */
  function SeedCups(draw: real): (cups: int)
    requires IsDraw(draw)
    ensures 0 <= cups < SeedRange
  {
    (draw * SeedRange as real).Floor
  }

  /** The sample the mapping function produces for the day `offset` days back. */
  function SampleDaysBack(labels: seq<string>, draws: seq<real>, offset: nat): DaySample
    requires offset < |labels| && offset < |draws|
    requires IsDraw(draws[offset])
  {
    DaySample(labels[offset], SeedCups(draws[offset]))
  }

  /** `Array.from({ length: n }, mapper)`: the samples for offsets 0 .. n-1, in that order. */
  function SamplesFrom(labels: seq<string>, draws: seq<real>, n: nat): (r: seq<DaySample>)
    requires n <= |labels| && n <= |draws|
    requires forall i :: 0 <= i < n ==> IsDraw(draws[i])
    ensures |r| == n
    ensures forall i :: 0 <= i < n ==> r[i] == SampleDaysBack(labels, draws, i)
  {
    if n == 0 then [] else SamplesFrom(labels, draws, n - 1) + [SampleDaysBack(labels, draws, n - 1)]
  }

  /** `.reverse()` of an array, as a value. */
  function Reverse<T>(s: seq<T>): (r: seq<T>)
    ensures |r| == |s|
  {
    if s == [] then [] else Reverse(s[1..]) + [s[0]]
  }

  /** Reversal keeps the length and mirrors every index. */
  lemma {:induction false} ReverseAt<T>(s: seq<T>)
    ensures forall k :: 0 <= k < |s| ==> Reverse(s)[k] == s[|s| - 1 - k]
  {
    if s != [] {
      ReverseAt(s[1..]);
    }
  }

  /** The series the mount effect stores: a week of samples, reversed. */
  function InitialSeries(labels: seq<string>, draws: seq<real>): (r: seq<DaySample>)
    requires |labels| == WeekLength && |draws| == WeekLength
    requires forall i :: 0 <= i < WeekLength ==> IsDraw(draws[i])
    ensures |r| == WeekLength
  {
    Reverse(SamplesFrom(labels, draws, WeekLength))
  }

  /** The mounted series has exactly seven entries, oldest first: index `k` holds the day
      `6 - k` days back, so index 6 is today and index 0 is six days back, and every
      seeded count lies in 0 .. 4. */
  lemma InitialSeriesShape(labels: seq<string>, draws: seq<real>)
    requires |labels| == WeekLength && |draws| == WeekLength
    requires forall i :: 0 <= i < WeekLength ==> IsDraw(draws[i])
    ensures |InitialSeries(labels, draws)| == WeekLength
    ensures forall k :: 0 <= k < WeekLength ==>
      InitialSeries(labels, draws)[k] == DaySample(labels[6 - k], SeedCups(draws[6 - k]))
    ensures Last(InitialSeries(labels, draws)).date == labels[0]
    ensures InitialSeries(labels, draws)[0].date == labels[6]
    ensures forall k :: 0 <= k < WeekLength ==> 0 <= InitialSeries(labels, draws)[k].cups < SeedRange
  {
    ReverseAt(SamplesFrom(labels, draws, WeekLength));
  }
}
