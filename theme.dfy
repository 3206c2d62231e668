/** The time-of-day theme: the hour of the day picks one of four background
    gradients, which is written to the page body's background. The clock and
    the hourly timer are outside the model: the hour is a parameter. */
module Theme {

  datatype Gradient = Morning | Afternoon | Evening | Night

  /** The CSS background value of each gradient. */
  function Css(g: Gradient): string {
    match g
    case Morning => "linear-gradient(135deg, #74b9ff 0%, #0984e3 100%)"
    case Afternoon => "linear-gradient(135deg, #fdcb6e 0%, #e17055 100%)"
    case Evening => "linear-gradient(135deg, #fd79a8 0%, #e84393 100%)"
    case Night => "linear-gradient(135deg, #2d3436 0%, #636e72 100%)"
  }

  /** The gradient for an hour of the day: the half-open ranges [6, 12),
      [12, 18) and [18, 21) give morning, afternoon and evening, and every
      other hour gives night. */
  function GradientFor(hour: int): (g: Gradient)
    requires 0 <= hour < 24
    ensures g == Morning <==> 6 <= hour < 12
    ensures g == Afternoon <==> 12 <= hour < 18
    ensures g == Evening <==> 18 <= hour < 21
    ensures g == Night <==> hour < 6 || 21 <= hour
  {
    if hour >= 6 && hour < 12 then Morning
    else if hour >= 12 && hour < 18 then Afternoon
    else if hour >= 18 && hour < 21 then Evening
    else Night
  }

  /** The four gradients have four different CSS values, so the background
      written tells which gradient was chosen. */
  lemma CssInjective(g1: Gradient, g2: Gradient)
    ensures Css(g1) == Css(g2) <==> g1 == g2
  {
    if g1 != g2 {
      var s1, s2 := Css(g1), Css(g2);
      assert s1[27] != s2[27] || s1[28] != s2[28];
    }
  }

  /** The hours at the edges of the ranges. */
  lemma Boundaries()
    ensures GradientFor(0) == Night && GradientFor(5) == Night
    ensures GradientFor(6) == Morning && GradientFor(11) == Morning
    ensures GradientFor(12) == Afternoon && GradientFor(17) == Afternoon
    ensures GradientFor(18) == Evening && GradientFor(20) == Evening
    ensures GradientFor(21) == Night && GradientFor(23) == Night
  {
  }

  /** The page body; only its background is modelled. */
  class Body {
    var background: string

    constructor (initial: string)
      ensures background == initial
    {
      background := initial;
    }
  }

  /** `updateBackgroundBasedOnTime` for the hour `hour`: the body's background
      and nothing else is written, with the CSS value of the hour's gradient. */
  method UpdateBackgroundBasedOnTime(body: Body, hour: int)
    requires 0 <= hour < 24
    modifies body`background
    ensures body.background == Css(GradientFor(hour))
  {
    if hour >= 6 && hour < 12 {
      body.background := "linear-gradient(135deg, #74b9ff 0%, #0984e3 100%)";
    } else if hour >= 12 && hour < 18 {
      body.background := "linear-gradient(135deg, #fdcb6e 0%, #e17055 100%)";
    } else if hour >= 18 && hour < 21 {
      body.background := "linear-gradient(135deg, #fd79a8 0%, #e84393 100%)";
    } else {
      body.background := "linear-gradient(135deg, #2d3436 0%, #636e72 100%)";
    }
  }
}
