// Background gradient state and the CSS text built for gradient previews
// (ui/gradient-manager.js). The canvas painting of applyGradientBackground is
// not part of this model.
module Gradient {
  import opened Text
  import Arith

  const DefaultGradient := "twilight"
  const DefaultDirection := "vertical"
  const DefaultOpacity: real := 0.65
  const DefaultAngle: int := 140

  /** `(i / (n - 1) * 100).toFixed(0)`: the nearest whole percent, a tie rounding up. */
  function StopPercent(i: nat, n: nat): (p: nat)
    requires 2 <= n && i < n
    ensures (p as real) - 0.5 <= 100.0 * (i as real) / ((n - 1) as real) < (p as real) + 0.5
    ensures p <= 100
  {
    var d := n - 1;
    var p := (200 * i + d) / (2 * d);
    assert 2 * d * p <= 200 * i + d < 2 * d * (p + 1);
    RoundingBounds(i, d, p);
    p
  }

  lemma CastProduct(d: nat, p: nat)
    ensures (2 * d * p) as real == 2.0 * (d as real) * (p as real)
  {
  }

  lemma RoundingBounds(i: nat, d: nat, p: nat)
    requires 1 <= d && i <= d
    requires 2 * d * p <= 200 * i + d < 2 * d * (p + 1)
    ensures (p as real) - 0.5 <= 100.0 * (i as real) / (d as real) < (p as real) + 0.5
    ensures p <= 100
  {
    var dr, pr, ir := d as real, p as real, i as real;
    CastProduct(d, p);
    CastProduct(d, p + 1);
    assert (pr - 0.5) * dr <= 100.0 * ir < (pr + 0.5) * dr;
    Arith.RealDivBounds(pr - 0.5, 100.0 * ir, pr + 0.5, dr);
    assert d * (2 * p) < d * 202 by {
      Arith.MulLe(d, i, d);
    }
    Arith.MulLtCancel(d, 2 * p, 202);
  }

  /** One "color pct%" stop per colour, for three or more colours. */
  function ColorStops(colors: seq<string>): string
    requires |colors| != 1
  {
    Join(seq(|colors|, i requires 0 <= i < |colors| =>
      colors[i] + " " + NatToString(StopPercent(i, |colors|)) + "%"), ", ")
  }

  /** The part between the opening of the gradient function and its ")". */
  function ColorList(colors: seq<string>): string
  {
    if |colors| == 1 then colors[0] + ", " + colors[0]
    else if |colors| == 2 then colors[0] + ", " + colors[1]
    else ColorStops(colors)
  }

  function LinearOpening(angle: int): string
  {
    "linear-gradient(" + IntToString(angle) + "deg, "
  }

  const RadialOpening := "radial-gradient(circle, "

  /** The module variables of the gradient manager. */
  class GradientManager {
    var currentGradient: string
    var currentDirection: string
    var currentOpacity: real
    var currentAngle: int

    constructor ()
      ensures currentGradient == DefaultGradient && currentDirection == DefaultDirection
      ensures currentOpacity == DefaultOpacity && currentAngle == DefaultAngle
    {
      currentGradient := DefaultGradient;
      currentDirection := DefaultDirection;
      currentOpacity := DefaultOpacity;
      currentAngle := DefaultAngle;
    }

    method SetGradient(key: string)
      modifies this`currentGradient
      ensures currentGradient == key
    {
      currentGradient := key;
    }

    method SetDirection(dir: string)
      modifies this`currentDirection
      ensures currentDirection == dir
    {
      currentDirection := dir;
    }

    method SetOpacity(opacity: real)
      modifies this`currentOpacity
      ensures currentOpacity == opacity
    {
      currentOpacity := opacity;
    }

    method SetAngle(angle: int)
      modifies this`currentAngle
      ensures currentAngle == angle
    {
      currentAngle := angle;
    }

    /** getGradientCSS: the angle comes from the current module state, never from a preset. */
    function GradientCSS(colors: seq<string>, direction: string): (css: string)
      reads this
      ensures var opening := if direction == "radial" then RadialOpening else LinearOpening(currentAngle);
              |css| == |opening| + |ColorList(colors)| + 1
              && css[..|opening|] == opening
              && css[|opening|..|css| - 1] == ColorList(colors)
              && css[|css| - 1] == ')'
    {
      if direction == "radial" then RadialOpening + ColorList(colors) + ")"
      else LinearOpening(currentAngle) + ColorList(colors) + ")"
    }
  }

  /** A single colour is emitted twice; two colours are emitted without percentages. */
  lemma ShortColorLists(c0: string, c1: string)
    ensures ColorList([c0]) == c0 + ", " + c0
    ensures ColorList([c0, c1]) == c0 + ", " + c1
  {
  }

  /** With n >= 3 colours the first stop is at 0% and the last at 100%, and stops never go backwards. */
  lemma {:induction false} StopEnds(n: nat, i: nat, j: nat)
    requires n >= 3 && i <= j < n
    ensures StopPercent(0, n) == 0 && StopPercent(n - 1, n) == 100
    ensures StopPercent(i, n) <= StopPercent(j, n)
  {
    var d := n - 1;
    var dr := d as real;
    assert 100.0 * (0 as real) / dr == 0.0;
    assert 100.0 * ((n - 1) as real) / dr == 100.0;
    Arith.DivMonotone(200 * i + d, 200 * j + d, 2 * d);
  }

  /** With n >= 3 colours the stop list holds exactly n entries, the i-th naming colour i. */
  lemma StopsAreOnePerColor(colors: seq<string>, i: nat)
    requires |colors| >= 3 && i < |colors|
    ensures var stops := seq(|colors|, k requires 0 <= k < |colors| =>
              colors[k] + " " + NatToString(StopPercent(k, |colors|)) + "%");
            |stops| == |colors| && stops[i][..|colors[i]|] == colors[i]
            && ColorStops(colors) == Join(stops, ", ")
  {
  }

  /** The preview for one direction is the same whatever the other state variables hold. */
  lemma RadialIgnoresAngle(g1: GradientManager, g2: GradientManager, colors: seq<string>)
    ensures g1.GradientCSS(colors, "radial") == g2.GradientCSS(colors, "radial")
  {
  }
}
