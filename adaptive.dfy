/** Adaptive Lighting cooperation: reading the service's targets, and telling a
    manual-looking attribute change apart from the service's own adaptation
    (apps/lights.py:335-368, 411-436), plus the jitter filter of
    `_changed_meaningfully` (apps/lights.py:554-566). */
module Adaptive {
  import opened Common
  import opened Numeric

  /** The light attributes the controller listens to; any other is `OtherAttr`. */
  datatype Attr = Brightness | BrightnessPct | ColorTemp | ColorTempKelvin | OtherAttr

  predicate IsBrightnessAttr(a: Attr) {
    a == Brightness || a == BrightnessPct
  }

  predicate IsColorTempAttr(a: Attr) {
    a == ColorTemp || a == ColorTempKelvin
  }

  /** `_mireds_to_kelvin`: None for a missing or non-positive value, otherwise
      1,000,000 / mireds rounded to the nearest integer. */
  function MiredsToKelvin(m: Option<real>): (r: Option<int>)
    ensures r.None? <==> m.None? || m.value <= 0.0
    ensures r.Some? ==> 1000000.0 / m.value - 0.5 <= r.value as real <= 1000000.0 / m.value + 0.5
  {
    if m.None? || m.value <= 0.0 then None else Some(RoundHalfEven(1000000.0 / m.value))
  }

  /** 250 mireds is 4000 K; 153 mireds is 6535.9... K, which rounds to 6536. */
  lemma MiredsExamples()
    ensures MiredsToKelvin(Some(250.0)) == Some(4000)
    ensures MiredsToKelvin(Some(153.0)) == Some(6536)
  {
    assert 1000000.0 / 250.0 == 4000.0;
    RoundOfInteger(4000);
    var k := MiredsToKelvin(Some(153.0)).value;
    assert 6535.0 < 1000000.0 / 153.0 < 6536.0 - 0.5 + 0.5;
  }

  /** Rounding never reverses the order of two numbers. */
  lemma RoundMonotone(x: real, y: real)
    requires x <= y
    ensures RoundHalfEven(x) <= RoundHalfEven(y)
  {
  }

  /** More mireds is a warmer light: the Kelvin value never increases. */
  lemma MiredsToKelvinAntitone(m1: real, m2: real)
    requires 0.0 < m1 <= m2
    ensures MiredsToKelvin(Some(m2)).value <= MiredsToKelvin(Some(m1)).value
  {
    assert 1000000.0 / m2 <= 1000000.0 / m1 by {
      assert 1000000.0 / m2 * m2 == 1000000.0 / m1 * m1;
    }
    RoundMonotone(1000000.0 / m2, 1000000.0 / m1);
  }

  /** The attributes of the Adaptive Lighting switch that the controller reads;
      None is an attribute that is missing. Numeric attributes are numbers. */
  datatype AlAttrs = AlAttrs(
    brightnessPct: Option<real>,
    brightness: Option<real>,
    colorTempKelvin: Option<real>,
    colorTemp: Option<real>,
    adaptBrightness: Option<bool>,
    adaptColor: Option<bool>)

  const NoAlAttrs := AlAttrs(None, None, None, None, None, None)

  /** `(brightness_pct, color_temp_kelvin, adapt_brightness, adapt_color)`. */
  datatype Target = Target(brightnessPct: Option<real>, colorTempKelvin: Option<real>, adaptBrightness: bool, adaptColor: bool)

  /** `_al_current_targets`. Without a switch the attributes are empty. The
      brightness falls back to the raw `brightness` attribute (0-255) truncated,
      the colour temperature to `color_temp` in mireds converted to Kelvin; the
      adapt flags come from the configuration when set, else from the switch
      (missing means yes). */
  function CurrentTargets(alSwitch: Option<string>, adaptB: Option<bool>, adaptC: Option<bool>, attrs0: AlAttrs): (t: Target)
    ensures !Configured(alSwitch) ==> t.brightnessPct.None? && t.colorTempKelvin.None?
    ensures Configured(alSwitch) && attrs0.brightnessPct.Some? ==> t.brightnessPct == attrs0.brightnessPct
    ensures Configured(alSwitch) && attrs0.brightnessPct.None? && attrs0.brightness.Some? ==>
              t.brightnessPct == Some(Trunc(attrs0.brightness.value) as real)
    ensures attrs0.brightnessPct.None? && attrs0.brightness.None? ==> t.brightnessPct.None?
    ensures Configured(alSwitch) && attrs0.colorTempKelvin.Some? ==> t.colorTempKelvin == attrs0.colorTempKelvin
    ensures attrs0.colorTempKelvin.None? && attrs0.colorTemp.None? ==> t.colorTempKelvin.None?
    ensures adaptB.Some? ==> t.adaptBrightness == adaptB.value
    ensures adaptC.Some? ==> t.adaptColor == adaptC.value
    ensures adaptB.None? ==> t.adaptBrightness == (!Configured(alSwitch) || attrs0.adaptBrightness.GetOr(true))
    ensures adaptC.None? ==> t.adaptColor == (!Configured(alSwitch) || attrs0.adaptColor.GetOr(true))
  {
    var attrs := if Configured(alSwitch) then attrs0 else NoAlAttrs;
    var bri :=
      if attrs.brightnessPct.Some? then attrs.brightnessPct
      else if attrs.brightness.Some? then Some(Trunc(attrs.brightness.value) as real)
      else None;
    var ct :=
      if attrs.colorTempKelvin.Some? then attrs.colorTempKelvin
      else if attrs.colorTemp.Some? then
        (var k := MiredsToKelvin(attrs.colorTemp); if k.Some? then Some(k.value as real) else None)
      else None;
    Target(bri, ct,
           if adaptB.Some? then adaptB.value else attrs.adaptBrightness.GetOr(true),
           if adaptC.Some? then adaptC.value else attrs.adaptColor.GetOr(true))
  }

  /** Without `brightness_pct`, the raw 0-255 `brightness` is taken as the target
      percentage unscaled: any raw value above 100 gives a target above 100
      "percent", and a fully bright switch (255) a target of 255. */
  lemma RawBrightnessTakenAsPercent(alSwitch: Option<string>, adaptB: Option<bool>, adaptC: Option<bool>, attrs: AlAttrs, b: real)
    requires Configured(alSwitch)
    requires attrs.brightnessPct.None? && attrs.brightness == Some(b)
    ensures var t := CurrentTargets(alSwitch, adaptB, adaptC, attrs).brightnessPct;
            && t.Some? && b - 1.0 < t.value && (b >= 0.0 ==> t.value <= b)
            && (b >= 101.0 ==> t.value > 100.0)
            && (b == 255.0 ==> t.value == 255.0)
  {
    assert Trunc(255.0) == 255;
  }

  /** Without `color_temp_kelvin`, a positive `color_temp` in mireds gives the
      target in Kelvin; a non-positive one gives no colour target. */
  lemma ColorTargetFromMireds(alSwitch: Option<string>, adaptB: Option<bool>, adaptC: Option<bool>, attrs: AlAttrs)
    requires Configured(alSwitch) && attrs.colorTempKelvin.None? && attrs.colorTemp.Some?
    ensures var ct := CurrentTargets(alSwitch, adaptB, adaptC, attrs).colorTempKelvin;
            (attrs.colorTemp.value <= 0.0 ==> ct.None?) &&
            (attrs.colorTemp.value > 0.0 ==>
               ct.Some? && 1000000.0 / attrs.colorTemp.value - 0.5 <= ct.value <= 1000000.0 / attrs.colorTemp.value + 0.5)
  {
  }

  /** `float(x or 0)`. */
  function OrZero(x: Option<real>): real {
    x.GetOr(0.0)
  }

  /** `_changed_meaningfully`: a move of at least 5 in brightness (raw or
      percent), 100 K or 5 mireds; any other attribute always counts. */
  function ChangedMeaningfully(attr: Attr, before: Option<real>, after: Option<real>): (r: bool)
    ensures attr.OtherAttr? ==> r
    ensures IsBrightnessAttr(attr) ==>
              (r <==> OrZero(after) >= OrZero(before) + 5.0 || OrZero(before) >= OrZero(after) + 5.0)
    ensures attr == ColorTempKelvin ==>
              (r <==> OrZero(after) >= OrZero(before) + 100.0 || OrZero(before) >= OrZero(after) + 100.0)
    ensures attr == ColorTemp ==>
              (r <==> OrZero(after) >= OrZero(before) + 5.0 || OrZero(before) >= OrZero(after) + 5.0)
  {
    var d := OrZero(after) - OrZero(before);
    var mag := if d < 0.0 then -d else d;
    match attr
    case Brightness => mag >= 5.0
    case BrightnessPct => mag >= 5.0
    case ColorTempKelvin => mag >= 100.0
    case ColorTemp => mag >= 5.0
    case OtherAttr => true
  }

  /** The test is symmetric, ignores a value that did not move, and treats a
      missing value as 0. */
  lemma ChangedMeaningfullyProperties(attr: Attr, before: Option<real>, after: Option<real>)
    ensures ChangedMeaningfully(attr, before, after) == ChangedMeaningfully(attr, after, before)
    ensures !attr.OtherAttr? ==> !ChangedMeaningfully(attr, before, before)
    ensures ChangedMeaningfully(attr, None, after) == ChangedMeaningfully(attr, Some(0.0), after)
  {
  }

  /** The observed brightness as a percentage: the raw 0-255 value scaled and
      rounded, or the percentage truncated. */
  function ObservedPct(attr: Attr, after: Option<real>): (r: Option<int>)
    requires IsBrightnessAttr(attr)
    ensures r.Some? <==> after.Some?
  {
    if after.None? then None
    else if attr == Brightness then Some(RoundHalfEven(after.value / 255.0 * 100.0))
    else Some(Trunc(after.value))
  }

  /** The observed colour temperature in Kelvin. */
  function ObservedKelvin(attr: Attr, after: Option<real>): (r: Option<int>)
    requires IsColorTempAttr(attr)
    ensures attr == ColorTempKelvin ==> (r.Some? <==> after.Some?)
  {
    if attr == ColorTemp then MiredsToKelvin(after)
    else if after.Some? then Some(Trunc(after.value))
    else None
  }

  /** `_al_is_change_like_al` given the current targets: with a switch configured,
      a brightness change within 3 percentage points of the target, or a colour
      temperature change within 150 K of it, looks like the service's own nudge. */
  function IsChangeLikeAl(alSwitch: Option<string>, t: Target, attr: Attr, after: Option<real>): (r: bool)
    ensures r ==> Configured(alSwitch) && !attr.OtherAttr?
    ensures r && IsBrightnessAttr(attr) ==> t.brightnessPct.Some? && after.Some?
    ensures r && IsColorTempAttr(attr) ==> t.colorTempKelvin.Some? && after.Some?
  {
    if !Configured(alSwitch) || attr.OtherAttr? then false
    else if IsBrightnessAttr(attr) then
      t.brightnessPct.Some? && ObservedPct(attr, after).Some? &&
      Abs(Trunc(t.brightnessPct.value) - ObservedPct(attr, after).value) <= 3
    else
      t.colorTempKelvin.Some? && ObservedKelvin(attr, after).Some? &&
      Abs(Trunc(t.colorTempKelvin.value) - ObservedKelvin(attr, after).value) <= 150
  }

  /** A `brightness_pct` report looks like the service exactly when its whole
      part is within 3 of the target's whole part. */
  lemma PercentReportBand(alSwitch: Option<string>, t: Target, b: real, v: real)
    requires Configured(alSwitch) && t.brightnessPct == Some(b)
    ensures IsChangeLikeAl(alSwitch, t, BrightnessPct, Some(v)) <==> Abs(Trunc(b) - Trunc(v)) <= 3
  {
  }

  /** A `color_temp_kelvin` report looks like the service exactly when its
      whole part is within 150 K of the target's whole part. */
  lemma KelvinReportBand(alSwitch: Option<string>, t: Target, k: real, v: real)
    requires Configured(alSwitch) && t.colorTempKelvin == Some(k)
    ensures IsChangeLikeAl(alSwitch, t, ColorTempKelvin, Some(v)) <==> Abs(Trunc(k) - Trunc(v)) <= 150
  {
  }

  /** Target 40 %, light moves to 42 %: the service's own adaptation. */
  lemma FortyToFortyTwoIsAdaptation(alSwitch: Option<string>, t: Target)
    requires Configured(alSwitch) && t.brightnessPct == Some(40.0)
    ensures IsChangeLikeAl(alSwitch, t, BrightnessPct, Some(42.0))
    ensures !IsChangeLikeAl(alSwitch, t, BrightnessPct, Some(44.0))
  {
  }

  /** For a raw 0-255 brightness report the tolerance band is, in exact
      percentages, at least 2.5 points and at most 3.5 points wide. */
  lemma RawBrightnessBand(alSwitch: Option<string>, t: Target, target: int, b: real)
    requires Configured(alSwitch) && t.brightnessPct == Some(target as real)
    ensures var pct := b / 255.0 * 100.0;
            (target as real - 2.5 <= pct <= target as real + 2.5 ==> IsChangeLikeAl(alSwitch, t, Brightness, Some(b))) &&
            (pct < target as real - 3.5 || pct > target as real + 3.5 ==> !IsChangeLikeAl(alSwitch, t, Brightness, Some(b)))
  {
    var pct := b / 255.0 * 100.0;
    var r := RoundHalfEven(pct);
    assert ObservedPct(Brightness, Some(b)) == Some(r);
    assert Trunc(target as real) == target;
  }

  /** For a report in mireds the band is, in exact Kelvin, at least 149.5 K and
      at most 150.5 K wide; a non-positive report never matches. */
  lemma MiredsBand(alSwitch: Option<string>, t: Target, target: int, m: real)
    requires Configured(alSwitch) && t.colorTempKelvin == Some(target as real)
    ensures m <= 0.0 ==> !IsChangeLikeAl(alSwitch, t, ColorTemp, Some(m))
    ensures m > 0.0 ==>
              var k := 1000000.0 / m;
              (target as real - 149.5 <= k <= target as real + 149.5 ==> IsChangeLikeAl(alSwitch, t, ColorTemp, Some(m))) &&
              (k < target as real - 150.5 || k > target as real + 150.5 ==> !IsChangeLikeAl(alSwitch, t, ColorTemp, Some(m)))
  {
    assert Trunc(target as real) == target;
  }
}
