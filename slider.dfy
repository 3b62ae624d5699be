// calculateSliderRange (ui/slider-utils.js): the min/max/step of a settings
// slider, derived from the effect's default value unless overridden.
module Slider {
  import opened Wrappers

  /** A step is a number, or the string 'auto'. */
  datatype Step = Auto | StepBy(size: real)

  /** The optional `overrides` object; an absent field is `undefined`. */
  datatype Overrides = Overrides(min: Option<real>, max: Option<real>, step: Option<real>)

  const NoOverrides := Overrides(None, None, None)

  datatype Range = Range(min: real, max: real, step: Step)

  /** JavaScript truthiness of an optional number: absent and 0 are falsy. */
  predicate Truthy(o: Option<real>) { o.Some? && o.value != 0.0 }

  function Max(a: real, b: real): real { if a >= b then a else b }
  function Abs(a: real): real { if a < 0.0 then -a else a }
  function Ceil(x: real): int { -((-x).Floor) }

  /** The computed range before the `??` overrides are applied. */
  function Derived(d: real, o: Overrides): Range
  {
    if d == 0.0 then Range(0.0, if Truthy(o.max) then o.max.value else 1.0, StepBy(0.01))
    else if 0.0 < d < 1.0 then Range(Max(0.0, d * 0.1), d * 5.0, StepBy(Max(0.001, d * 0.1)))
    else if d < 0.0 then Range(d * 5.0, Abs(d) * 5.0, StepBy(Max(0.1, Abs(d) * 0.1)))
    else Range(Max(1.0, (d * 0.1).Floor as real), Ceil(d * 5.0) as real,
               StepBy(Max(1.0, (d * 0.05).Floor as real)))
  }

  function SliderRange(d: real, o: Overrides): (r: Range)
    ensures o.min.Some? && o.max.Some? ==>
              r == Range(o.min.value, o.max.value, if Truthy(o.step) then StepBy(o.step.value) else Auto)
    ensures o == NoOverrides ==> r.min <= d <= r.max && r.step.StepBy? && r.step.size > 0.0
  {
    if o.min.Some? && o.max.Some? then
      Range(o.min.value, o.max.value, if Truthy(o.step) then StepBy(o.step.value) else Auto)
    else
      var base := Derived(d, o);
      Range(o.min.GetOr(base.min), o.max.GetOr(base.max),
            if o.step.Some? then StepBy(o.step.value) else base.step)
  }

  /** Without both bounds given, a single override replaces only its own field. */
  lemma SingleOverride(d: real, v: real)
    ensures var base := SliderRange(d, NoOverrides);
            SliderRange(d, Overrides(Some(v), None, None)) == base.(min := v)
            && SliderRange(d, Overrides(None, None, Some(v))) == base.(step := StepBy(v))
            && SliderRange(d, Overrides(None, Some(v), None)) == base.(max := v)
  {
  }

  /** A zero default with only a max override: `max || 1` then `max ?? ...` keeps a given 0. */
  lemma ZeroDefaultMax(v: real)
    ensures SliderRange(0.0, Overrides(None, Some(v), None)) == Range(0.0, v, StepBy(0.01))
    ensures SliderRange(0.0, NoOverrides) == Range(0.0, 1.0, StepBy(0.01))
  {
  }

  /** The four default-value bands of the computed range. */
  lemma DefaultBands(d: real)
    ensures 0.0 < d < 1.0 ==> SliderRange(d, NoOverrides) == Range(d * 0.1, d * 5.0, StepBy(Max(0.001, d * 0.1)))
    ensures d < 0.0 ==> SliderRange(d, NoOverrides) == Range(d * 5.0, -d * 5.0, StepBy(Max(0.1, -d * 0.1)))
    ensures d >= 1.0 ==> var r := SliderRange(d, NoOverrides);
              r.min >= 1.0 && r.max >= d * 5.0 && r.max < d * 5.0 + 1.0
              && r.step.StepBy? && r.step.size >= 1.0 && r.step.size == r.step.size.Floor as real
  {
  }
}
