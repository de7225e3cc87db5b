/** The numeric input field of the play controls.

    The commit rule (round the typed value to the nearest multiple of `step`,
    then clamp it into [min, max]) and the arrow-key arithmetic are pure
    functions; the field itself, whose displayed `value` and `isTyping` flag
    the event handlers update in place, is a class with one method per event.
    Numbers are exact reals; JavaScript's `Math.round` is modelled by its
    round-half-up rule. */
module NumberInput {
  import opened Wrappers

  /** The keys the key-down handler tells apart. */
  datatype Key = Enter | Escape | ArrowUp | ArrowDown | Other

  /** `Math.round`: the nearest integer, a half rounding up (towards +infinity). */
  function JsRound(x: real): (r: int)
    ensures r as real - 0.5 <= x < r as real + 0.5
  {
    (x + 0.5).Floor
  }

  /** Any integer within half a unit of x (half below included) is JsRound(x). */
  lemma JsRoundUnique(x: real, k: int)
    requires k as real - 0.5 <= x < k as real + 0.5
    ensures JsRound(x) == k
  {
  }

  /** `Math.round(value / step) * step`: the multiple of `step` nearest to `value`,
      a tie going to the larger multiple. */
  function RoundToStep(value: real, step: real): (r: real)
    requires step > 0.0
    ensures r - step / 2.0 <= value < r + step / 2.0
  {
    var k := JsRound(value / step);
    MulBounds(k as real - 0.5, value / step, k as real + 0.5, step);
    k as real * step
  }

  /** Scaling a half-open interval by a positive factor. */
  lemma MulBounds(lo: real, x: real, hi: real, s: real)
    requires s > 0.0 && lo <= x < hi
    ensures lo * s <= x * s < hi * s
  {
  }

  /** Every multiple of `step` is a fixed point of the rounding. */
  lemma {:induction false} RoundToStepOfMultiple(k: int, step: real)
    requires step > 0.0
    ensures RoundToStep(k as real * step, step) == k as real * step
  {
    assert k as real * step / step == k as real;
    JsRoundUnique(k as real * step / step, k);
  }

  /** The rounding is the only multiple of `step` that is that close to `value`. */
  lemma {:induction false} RoundToStepUnique(value: real, step: real, k: int)
    requires step > 0.0
    requires k as real * step - step / 2.0 <= value < k as real * step + step / 2.0
    ensures RoundToStep(value, step) == k as real * step
  {
    var q := value / step;
    assert q * step == value;
    assert k as real - 0.5 <= q by {
      if q < k as real - 0.5 {
        MulBounds(q, q, k as real - 0.5, step);
      }
    }
    assert q < k as real + 0.5 by {
      if q >= k as real + 0.5 {
        MulBounds(k as real + 0.5, k as real + 0.5, q, step);
        assert false;
      }
    }
    JsRoundUnique(q, k);
  }

  /** Replace a value below `min` by `min` and one above `max` by `max`;
      `min` is tested first. */
  function Clamp(x: real, min: real, max: real): (r: real)
    ensures min <= max ==> min <= r <= max
    ensures min <= x <= max ==> r == x
    ensures x < min ==> r == min
    ensures min <= x && max < x ==> r == max
  {
    if x < min then min else if x > max then max else x
  }

  /** The value a commit (blur, or Enter) settles on. */
  function CommitValue(value: real, min: real, max: real, step: real): (r: real)
    requires step > 0.0
    ensures min <= max ==> min <= r <= max
    ensures min <= RoundToStep(value, step) <= max ==> r - step / 2.0 <= value < r + step / 2.0
  {
    Clamp(RoundToStep(value, step), min, max)
  }

  /** With a non-negative lower bound, a negative entry always commits to `min`. */
  lemma {:induction false} CommitNegativeIsMin(value: real, min: real, max: real, step: real)
    requires step > 0.0 && value < 0.0 && 0.0 <= min <= max
    ensures CommitValue(value, min, max, step) == min
  {
  }

  lemma MulBoundsNonStrict(x: real, y: real, s: real)
    requires s > 0.0 && x <= y
    ensures x * s <= y * s
  {
  }

  /** A step multiple inside [min, max] is left alone by a commit. */
  lemma {:induction false} CommitOfCommitted(k: int, min: real, max: real, step: real)
    requires step > 0.0 && min <= k as real * step <= max
    ensures CommitValue(k as real * step, min, max, step) == k as real * step
  {
    RoundToStepOfMultiple(k, step);
  }

  /** When both bounds are step multiples, committing twice is committing once. */
  lemma {:induction false} CommitIdempotent(value: real, a: int, b: int, step: real)
    requires step > 0.0 && a <= b
    ensures var lo, hi := a as real * step, b as real * step;
      var c := CommitValue(value, lo, hi, step);
      CommitValue(c, lo, hi, step) == c
  {
    var lo, hi := a as real * step, b as real * step;
    MulBoundsNonStrict(a as real, b as real, step);
    assert hi - lo == (b - a) as real * step;
    assert lo <= hi;
    var k := JsRound(value / step);
    var c := CommitValue(value, lo, hi, step);
    if RoundToStep(value, step) < lo {
      CommitOfCommitted(a, lo, hi, step);
    } else if RoundToStep(value, step) > hi {
      CommitOfCommitted(b, lo, hi, step);
    } else {
      assert c == k as real * step;
      CommitOfCommitted(k, lo, hi, step);
    }
  }

  /** What `validateValueAndOnChange` does: the value to display, whether it is
      written back, and the value handed to `onChange`, if any. */
  datatype Commit = Commit(newValue: real, rewrite: bool, emit: Option<real>)

  function Validate(value: real, defaultValue: real, min: real, max: real, step: real): (c: Commit)
    requires step > 0.0
    ensures c.newValue == CommitValue(value, min, max, step)
    ensures c.rewrite <==> c.newValue != value
    ensures c.emit.Some? <==> c.newValue != defaultValue
    ensures c.emit.Some? ==> c.emit.value == c.newValue
  {
    var v := CommitValue(value, min, max, step);
    Commit(v, v != value, if v != defaultValue then Some(v) else None)
  }

  /** Committing a default that is already a step multiple in range writes
      nothing and calls nobody: this is why Escape is silent. */
  lemma {:induction false} ValidateCommittedDefaultIsQuiet(k: int, min: real, max: real, step: real)
    requires step > 0.0 && min <= k as real * step <= max
    ensures var d := k as real * step;
      Validate(d, d, min, max, step) == Commit(d, false, None)
  {
    CommitOfCommitted(k, min, max, step);
  }

  /** The deferred commit after Escape is silent (no write, no `onChange`)
      exactly when committing the default gives the default back. */
  lemma ValidateDefaultQuietIff(d: real, min: real, max: real, step: real)
    requires step > 0.0
    ensures Validate(d, d, min, max, step) == Commit(d, false, None) <==> CommitValue(d, min, max, step) == d
  {
  }

  /** Once the parent has taken a committed value as its new default, a second
      blur neither rewrites the field nor calls `onChange` again. */
  lemma {:induction false} SecondCommitIsQuiet(value: real, a: int, b: int, step: real)
    requires step > 0.0 && a <= b
    ensures var lo, hi := a as real * step, b as real * step;
      var c := CommitValue(value, lo, hi, step);
      Validate(c, c, lo, hi, step) == Commit(c, false, None)
  {
    CommitIdempotent(value, a, b, step);
  }

  /** ArrowUp: one step above the default, capped at `max`. */
  function ArrowUpValue(defaultValue: real, step: real, max: real): (r: real)
    ensures r <= max && r <= defaultValue + step
    ensures r == defaultValue + step || r == max
  {
    if defaultValue + step > max then max else defaultValue + step
  }

  /** ArrowDown: one step below the default, floored at 0 (not at `min`). */
  function ArrowDownValue(defaultValue: real, step: real): (r: real)
    ensures r >= 0.0 && r >= defaultValue - step
    ensures r == defaultValue - step || r == 0.0
  {
    if defaultValue - step > 0.0 then defaultValue - step else 0.0
  }

  /** Up then down, with the parent adopting each emitted value as the new
      default, returns to the start when there is room for one step. */
  lemma ArrowUpThenDown(d: real, step: real, max: real)
    requires step > 0.0 && 0.0 <= d && d + step <= max
    ensures ArrowDownValue(ArrowUpValue(d, step, max), step) == d
  {
  }

  /** Down then up returns to the start when the default is at least a step
      above 0 and within `max`. */
  lemma ArrowDownThenUp(d: real, step: real, max: real)
    requires step > 0.0 && step < d <= max
    ensures ArrowUpValue(ArrowDownValue(d, step), step, max) == d
  {
  }

  /** The field: the displayed `value` and the `isTyping` flag are the state
      the handlers change; the props are fields a re-render overwrites. */
  class NumberInputField {
    var value: real
    var isTyping: bool
    var defaultValue: real
    var min: real
    var max: real
    const step: real

    ghost predicate Valid()
      reads this
    {
      step > 0.0
    }

    /** First render: the displayed value starts at the default. */
    constructor (defaultValue: real, min: real, max: real, step: real)
      requires step > 0.0
      ensures Valid()
      ensures this.value == defaultValue && !isTyping
      ensures this.defaultValue == defaultValue && this.min == min && this.max == max && this.step == step
    {
      this.value := defaultValue;
      this.isTyping := false;
      this.defaultValue := defaultValue;
      this.min := min;
      this.max := max;
      this.step := step;
    }

    /** The commit shared by blur, Enter and the deferred blur after Escape. */
    method ValidateValueAndOnChange() returns (emitted: Option<real>)
      requires Valid()
      modifies this`value
      ensures var c := Validate(old(value), defaultValue, min, max, step);
        value == c.newValue && emitted == c.emit
    {
      var rounded := JsRound(value / step) as real * step;
      var onChangeValue := rounded;
      if rounded < min {
        onChangeValue := min;
      } else if rounded > max {
        onChangeValue := max;
      }
      if onChangeValue != value {
        value := onChangeValue;
      }
      emitted := None;
      if onChangeValue != defaultValue {
        emitted := Some(onChangeValue);
      }
    }

    /** A change event carrying the parsed number: always shown, forwarded
        unrounded and unclamped unless the user is typing. */
    method HandleInputChange(x: real) returns (emitted: Option<real>)
      modifies this`value
      ensures value == x
      ensures emitted == if isTyping then None else Some(x)
    {
      value := x;
      if isTyping {
        return None;
      }
      emitted := Some(x);
    }

    method HandleInputBlur() returns (emitted: Option<real>)
      requires Valid()
      modifies this`value, this`isTyping
      ensures !isTyping
      ensures var c := Validate(old(value), defaultValue, min, max, step);
        value == c.newValue && emitted == c.emit
    {
      isTyping := false;
      emitted := ValidateValueAndOnChange();
    }

    /** Enter commits through the blur it causes; Escape restores the default
        and then commits it through its deferred blur; the arrows emit a step
        from the default; every other key marks the user as typing. */
    method HandleInputKeyDown(key: Key) returns (emitted: Option<real>)
      requires Valid()
      modifies this`value, this`isTyping
      ensures isTyping <==> !(key.Enter? || key.Escape?)
      ensures key.Enter? ==>
        var c := Validate(old(value), defaultValue, min, max, step);
        value == c.newValue && emitted == c.emit
      ensures key.Escape? ==>
        var c := Validate(defaultValue, defaultValue, min, max, step);
        value == c.newValue && emitted == c.emit
      ensures key.ArrowUp? ==> value == old(value) && emitted == Some(ArrowUpValue(defaultValue, step, max))
      ensures key.ArrowDown? ==> value == old(value) && emitted == Some(ArrowDownValue(defaultValue, step))
      ensures key.Other? ==> value == old(value) && emitted == None
    {
      if key == Enter || key == Escape {
        isTyping := false;
      } else {
        isTyping := true;
      }
      emitted := None;
      if key == ArrowUp {
        emitted := Some(ArrowUpValue(defaultValue, step, max));
      }
      if key == ArrowDown {
        emitted := Some(ArrowDownValue(defaultValue, step));
      }
      if key == Enter {
        emitted := HandleInputBlur();
      }
      if key == Escape {
        value := defaultValue;
        emitted := HandleInputBlur();
      }
    }

    method HandleInputClick()
      modifies this`isTyping
      ensures !isTyping
    {
      isTyping := false;
    }

    /** A re-render with new props; the effect on `defaultValue` copies a
        changed default into the displayed value. */
    method Rerender(newDefault: real, newMin: real, newMax: real)
      modifies this`defaultValue, this`min, this`max, this`value
      ensures defaultValue == newDefault && min == newMin && max == newMax
      ensures value == if newDefault != old(defaultValue) then newDefault else old(value)
    {
      var changed := newDefault != defaultValue;
      defaultValue, min, max := newDefault, newMin, newMax;
      if changed && defaultValue != value {
        value := defaultValue;
      }
    }
  }
}
