/** The play controls: a "current time" field and a "duration" field whose
    commits are coupled so that the time never passes the duration. Both
    handlers are pure: they build a new record from the old one and the
    number a field emitted. */
module PlayControls {
  import NumberInput

  /** The shared `{time, duration}` state the two handlers replace. */
  datatype TimeControls = TimeControls(time: real, duration: real)

  const TIME_STEP_LENGTH: real := 10.0
  const DURATION_STEP_LENGTH: real := 10.0
  const TIME_MIN: real := 0.0
  const DURATION_MIN: real := 100.0
  const DURATION_MAX: real := 6000.0

  /** The props one number field is rendered with. */
  datatype FieldProps = FieldProps(min: real, max: real, step: real)

  /** The time field runs from 0 to the current duration. */
  function TimeField(tc: TimeControls): (p: FieldProps)
    ensures p.min == TIME_MIN && p.max == tc.duration && p.step > 0.0
  {
    FieldProps(TIME_MIN, tc.duration, TIME_STEP_LENGTH)
  }

  /** The duration field has fixed bounds, independent of the state. */
  function DurationField(): (p: FieldProps)
    ensures p.min == DURATION_MIN && p.max == DURATION_MAX && p.min <= p.max && p.step > 0.0
  {
    FieldProps(DURATION_MIN, DURATION_MAX, DURATION_STEP_LENGTH)
  }

  /** A new time, cut down to the duration; the duration stays. */
  function OnTimeChange(tc: TimeControls, newTime: real): (r: TimeControls)
    ensures r.duration == tc.duration
    ensures r.time <= r.duration
    ensures newTime <= tc.duration ==> r.time == newTime
    ensures newTime > tc.duration ==> r.time == tc.duration
  {
    TimeControls(if newTime > tc.duration then tc.duration else newTime, tc.duration)
  }

  /** A new duration; the time comes down to it only if it was past it. */
  function OnDurationChange(tc: TimeControls, newDuration: real): (r: TimeControls)
    ensures r.duration == newDuration
    ensures r.time <= r.duration
    ensures tc.time <= newDuration ==> r.time == tc.time
    ensures tc.time > newDuration ==> r.time == newDuration
  {
    TimeControls(if tc.time > newDuration then newDuration else tc.time, newDuration)
  }

  /** The state the controls keep when every change goes through a commit. */
  ghost predicate WellFormed(tc: TimeControls)
  {
    TIME_MIN <= tc.time <= tc.duration && DURATION_MIN <= tc.duration <= DURATION_MAX
  }

  /** Repeating a handler with the same input changes nothing more. */
  lemma HandlersIdempotent(tc: TimeControls, x: real)
    ensures OnTimeChange(OnTimeChange(tc, x), x) == OnTimeChange(tc, x)
    ensures OnDurationChange(OnDurationChange(tc, x), x) == OnDurationChange(tc, x)
  {
  }

  /** A commit in the duration field, with the props it is rendered with,
      lies in [100, 6000], and adopting it keeps the controls well formed. */
  lemma {:induction false} DurationCommitKeepsWellFormed(tc: TimeControls, typed: real)
    requires WellFormed(tc)
    ensures var p := DurationField();
      var d := NumberInput.CommitValue(typed, p.min, p.max, p.step);
      DURATION_MIN <= d <= DURATION_MAX && WellFormed(OnDurationChange(tc, d))
  {
  }

  /** A commit in the time field, with the props it is rendered with, lies in
      [0, duration]: the handler never has to cut it, and adopting it keeps
      the controls well formed. */
  lemma {:induction false} TimeCommitKeepsWellFormed(tc: TimeControls, typed: real)
    requires WellFormed(tc)
    ensures var p := TimeField(tc);
      var t := NumberInput.CommitValue(typed, p.min, p.max, p.step);
      TIME_MIN <= t <= tc.duration && OnTimeChange(tc, t) == TimeControls(t, tc.duration) && WellFormed(OnTimeChange(tc, t))
  {
  }

  /** ArrowDown on the duration field is floored at 0, not at the field's
      minimum: from a duration of 100 it emits 90, below DURATION_MIN. */
  lemma DurationArrowDownLeavesRange()
    ensures var tc := OnDurationChange(TimeControls(0.0, DURATION_MIN), NumberInput.ArrowDownValue(DURATION_MIN, DURATION_STEP_LENGTH));
      tc.duration == 90.0 && !WellFormed(tc)
  {
  }

  /** Both arrows on the time field, and ArrowUp on the duration field, keep
      the controls well formed. */
  lemma {:induction false} ArrowsKeepWellFormed(tc: TimeControls)
    requires WellFormed(tc)
    ensures WellFormed(OnTimeChange(tc, NumberInput.ArrowDownValue(tc.time, TIME_STEP_LENGTH)))
    ensures WellFormed(OnTimeChange(tc, NumberInput.ArrowUpValue(tc.time, TIME_STEP_LENGTH, tc.duration)))
    ensures WellFormed(OnDurationChange(tc, NumberInput.ArrowUpValue(tc.duration, DURATION_STEP_LENGTH, DURATION_MAX)))
  {
  }

  /** The initial state of the timeline panel. */
  function Initial(): (tc: TimeControls)
    ensures WellFormed(tc)
  {
    TimeControls(0.0, 2000.0)
  }
}
